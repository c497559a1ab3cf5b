# PresentIQ feedback core, modelled in Dafny

PresentIQ lets a medical student record an oral case presentation. The
recording is transcribed, and the transcript is sent to a language model.
The model plays an attending physician on a chosen clinical rotation.
Its answer is turned into a feedback record and shown on a Streamlit page,
which also offers a plain-text report for download.

This project models the deterministic parts around the model call.

- **Rotation table** (`Services`). Ten rotations, each with a service
  context. A lookup falls back to the hospitalist service when the key is
  unknown. `get_service_options` groups the rotations by specialty.
  `get_service_description` returns a short description, with generic
  defaults.
- **Prompts** (`Prompts`). The system prompt and the user prompt, written
  as string concatenations.
- **Feedback records** (`Feedback`). These cover:
  - the keyword-driven parser used when the reply is not JSON;
  - the failure record;
  - `generate_feedback`, which picks the JSON path, the heuristic path or
    the failure path, and then adds the `service` and `specialty` keys.
- **Page logic of app.py**:
  - `ServiceMenu`: the service selector's option list and label dict;
  - `Display`: the score shown in the banner, and the downloadable report;
  - `SessionState`: the session state as a class whose methods are the
    page's state transitions.

The shared modules are:

- `Strings`: `lower`, `in`, `split`, `join`, `str(int)` and `int(digits)`;
- `OrderedDict`: a Python dict as an insertion-ordered association list;
- `Values`: JSON values, with `str()`, `repr()`, truthiness, iteration and
  `str.join`;
- `Wrappers`: `Option` and `Result`.

Inputs the program cannot compute are parameters:

- the completion returned by the chat call (`Completion`);
- `json.loads`, as a function from text to a `Decoding`: the decoded
  value, `JSONDecodeError`, or another exception with its message;
- for the session, the feedback generator, as a function from text to a
  record.

The system prompt asks for a score from 1 to 10
(feedback_generator.py:195), but nothing clamps it. A JSON reply is
returned as decoded, plus the two rotation keys.

## Model

| member | source | states |
|---|---|---|
| Services.Find | feedback_generator.py:118 | a found rotation is in the list and has the key; not found means no listed rotation has it |
| Services.Lookup | feedback_generator.py:118 | a found rotation is stored under the key; nothing is found exactly when no rotation has that key |
| Services.SelectRotation | feedback_generator.py:118 | the selected rotation has the requested key, or the key is unknown and the hospitalist rotation is chosen |
| Services.SelectKnown | feedback_generator.py:118 | a known key selects its own rotation |
| Services.SelectRotationIff | feedback_generator.py:118 | both directions: rotation r is selected iff r has the key, or the key is unknown and r is the hospitalist rotation |
| Services.KeyInjective | feedback_generator.py:25-113 | distinct rotations have distinct keys |
| Services.RotationsComplete | feedback_generator.py:25-113 | every rotation appears in the table |
| Services.TableKeysDistinct | feedback_generator.py:25-113 | the table has no duplicate key |
| Services.Context | feedback_generator.py:25-113 | each rotation's specialty, name, focus, key elements, common presentations and expectations, as the table spells them |
| Services.Table | feedback_generator.py:25-113 | the ten (key, context) rows in the table's order |
| Services.ServiceDescription | feedback_generator.py:288-291 | a known key gives its focus and common presentations; an unknown key gives "General medical care" and "Various medical conditions", with no hospitalist fallback |
| Services.AddService | feedback_generator.py:281-285 | one loop step: create the specialty's group if missing, then file the key under it with the rotation's name |
| Services.GroupBySpecialty | feedback_generator.py:278-286 | the loop's result: AddService applied to the rows in order, from the empty dict |
| Services.GroupBySpecialtyStep | feedback_generator.py:281-285 | grouping one more row is one AddService step on the grouping of the rows before it |
| Services.CreateThenFile | feedback_generator.py:283-285 | creating an empty group and then filing the key equals one AddService step |
| Services.AddServiceStep | feedback_generator.py:281-285 | one loop step keeps the result a correct grouping of the rows seen, when the new key is fresh |
| Services.GroupBySpecialtyCorrect | feedback_generator.py:278-286 | for any table with distinct keys, the grouping has: one group per specialty occurring in it and no other; every row filed under its own specialty, mapped to its name; no key twice in a group; no entry that is not a row |
| Services.TableGrouped | feedback_generator.py:278-286 | the rotation table's own grouping is correct in that sense |
| Services.GetServiceOptions | feedback_generator.py:278-286 | the nested-dict loop returns the table's grouping, and that grouping is correct |
| Prompts.SystemPrompt | feedback_generator.py:154-206 | the system prompt: the rotation's name, specialty, focus, common presentations, expectations and joined key elements spliced into the fixed text |
| Prompts.UserPrompt | feedback_generator.py:208-223 | the user prompt: the rotation's name and specialty, the transcript and the joined key elements spliced into the fixed text |
| Prompts.SystemPromptHasList | feedback_generator.py:185 | the system prompt contains the key elements joined by ", " |
| Prompts.SystemPromptHasEachElement | feedback_generator.py:185 | the system prompt contains every key element |
| Prompts.SystemPromptListsElements | feedback_generator.py:154-206 | the system prompt carries the joined element list and each element |
| Prompts.UserPromptEmbedsTranscript | feedback_generator.py:208-223 | the user prompt contains the transcript verbatim, after the transcript header and followed by a blank line |
| Prompts.UserPromptListsElements | feedback_generator.py:218 | the user prompt contains the joined element list and each element |
| Feedback.Classify | feedback_generator.py:247-256 | the branch chain on one lower-cased paragraph: "overall" (first paragraph only), then "clinical content" or "medical", "reasoning", "structure" or "organization", "service" or "specific" |
| Feedback.Label | feedback_generator.py:244-256 | each paragraph, with the field Classify picks for it given its position |
| Feedback.Fill | feedback_generator.py:244-256 | the loop's record: the starting record with each labelled paragraph stored under its field, in order |
| Feedback.WithFallback | feedback_generator.py:258-260 | the whole reply becomes the overall assessment when none of the three core fields is truthy |
| Feedback.ParseUnstructured | feedback_generator.py:225-262 | `_parse_unstructured_feedback`: WithFallback of Fill of Label of the reply split at blank lines |
| Feedback.FieldKey | feedback_generator.py:247-256 | every narrative field is stored under one of the nine record keys |
| Feedback.ClassifyFirstEligible | feedback_generator.py:247-256 | a paragraph gets no field iff no field's keyword occurs in it, with "overall" counted only for the first paragraph; otherwise it gets the highest-priority field whose keyword occurs in it |
| Feedback.OverallOnlyFirst | feedback_generator.py:247-248 | a paragraph becomes the overall assessment iff it is the first one and mentions "overall"; a later one is classified as if "overall" were not a keyword |
| Feedback.ClassifiedNonEmpty | feedback_generator.py:247-256 | a paragraph that is assigned a field is non-empty |
| Feedback.AssignSection | feedback_generator.py:245-256 | the loop body's branch chain stores the paragraph under the field Classify picks, and leaves the record alone when there is none |
| Feedback.BaseRecordKeys | feedback_generator.py:229-239 | the starting record has the nine keys in order |
| Feedback.BaseRecordField | feedback_generator.py:229-239 | each narrative field starts empty |
| Feedback.BaseRecordScore | feedback_generator.py:230 | the starting score is 7 |
| Feedback.LabelNonEmpty | feedback_generator.py:244-256 | every paragraph that gets a field is non-empty |
| Feedback.FillKeys | feedback_generator.py:244-256 | the loop never adds or removes a key |
| Feedback.FillKeepsOthers | feedback_generator.py:244-256 | keys outside the five narrative fields keep their starting value |
| Feedback.FillFieldUnset | feedback_generator.py:244-256 | a field no paragraph went to stays "" |
| Feedback.FillFieldLast | feedback_generator.py:249-256 | when several paragraphs go to a field, the last of them is stored |
| Feedback.FillFieldFilled | feedback_generator.py:244-256 | a narrative field holds a non-empty string iff some paragraph went to it |
| Feedback.FieldTruthy | feedback_generator.py:259 | a field is truthy after the loop iff some paragraph went to it |
| Feedback.FallbackIff | feedback_generator.py:259-260 | the fallback fires iff no paragraph went to the overall assessment, clinical content or clinical reasoning; structure or service matches do not stop it |
| Feedback.WithFallbackGet | feedback_generator.py:259-260 | the fallback changes only the overall assessment, and only when it fires |
| Feedback.WithFallbackKeys | feedback_generator.py:259-260 | the fallback keeps the key order |
| Feedback.ParseUnstructuredKeys | feedback_generator.py:225-262 | the heuristic record has exactly the nine keys, in order |
| Feedback.ParseUnstructuredOther | feedback_generator.py:225-262 | a key outside the narrative fields keeps its starting value |
| Feedback.ParseUnstructuredShape | feedback_generator.py:229-239 | the heuristic record has the nine keys, a score of 7 and three empty lists |
| Feedback.NoCoreMatchIff | feedback_generator.py:244-259 | "no paragraph classified into a core field" is the same as "no core field assigned" |
| Feedback.ParseFallback | feedback_generator.py:258-260 | if no core field matched, the overall assessment is the whole reply; every other key is as the loop left it; otherwise the loop's record is returned |
| Feedback.ParseLastWins | feedback_generator.py:244-262 | the last paragraph assigned to a field is what the returned record holds in it |
| Feedback.ParseFieldUnset | feedback_generator.py:225-262 | a field no paragraph went to is "", except that the overall assessment takes the whole reply when the fallback fires |
| Feedback.ParseUnstructuredFeedback | feedback_generator.py:225-262 | the in-place loop over paragraphs returns ParseUnstructured of the reply, to which the lemmas above apply |
| Feedback.ErrorFeedback | feedback_generator.py:264-276 | `_create_error_feedback`: the nine keys with score 0, the prefixed message and fixed texts |
| Feedback.ErrorFeedbackShape | feedback_generator.py:264-276 | the failure record has: the nine keys and no service or specialty key; score 0; the message after the fixed prefix; no strengths; exactly one improvement |
| Feedback.RecordKeysDistinct | feedback_generator.py:229-239 | the nine record keys are distinct |
| Feedback.RotationKeysApart | feedback_generator.py:145-146 | service and specialty are not among the nine record keys |
| Feedback.Stamp | feedback_generator.py:145-146 | the two assignments of service and specialty, in that order |
| Feedback.StampGet | feedback_generator.py:145-146 | stamping sets service to the context's name and specialty to its specialty, and leaves every other key alone |
| Feedback.Respond | feedback_generator.py:136-152 | the answer's handling by case: failed call, empty reply, decode error, other exception, dict, other value |
| Feedback.FeedbackFor | feedback_generator.py:115-152 | `generate_feedback`: Respond to the answer given to the prompts of the selected rotation |
| Feedback.RespondIsStamp | feedback_generator.py:139-148 | a reply that decodes to a dict, or raises `JSONDecodeError`, yields the decoded dict or the heuristic record, stamped |
| Feedback.RespondStamped | feedback_generator.py:139-148 | on both the JSON path and the heuristic path, service and specialty equal the selected context's name and specialty |
| Feedback.RespondKeepsOthers | feedback_generator.py:139-148 | every other key is as decoded or as parsed |
| Feedback.RespondHeuristicKeys | feedback_generator.py:139-148 | a reply that raises `JSONDecodeError` yields the nine keys followed by service and specialty |
| Feedback.RespondOnError | feedback_generator.py:136-152 | the failure record, carrying the exception's message, is returned in four cases: a failed call, a reply without content, a decoding that raises anything but `JSONDecodeError`, and a reply that decodes to a non-dict; it has score 0, the prefixed message, and no rotation keys |
| Feedback.UnknownKeyPrompts | feedback_generator.py:118-122 | for an unknown key, both prompts list the hospitalist service's required elements |
| Feedback.HandleResponse | feedback_generator.py:124-152 | the statement-by-statement handling of the answer returns Respond, to which the lemmas above apply |
| Feedback.GenerateFeedback | feedback_generator.py:115-152 | look up, build both prompts, call, then handle; equals FeedbackFor |
| ServiceMenu.Entries | app.py:126-129 | the (key, caption) pairs of the nested loops, group by group, in order |
| ServiceMenu.Assign | app.py:130 | the label dict built by assigning the pairs in turn |
| ServiceMenu.GroupEntries | app.py:126-130 | one (key, "specialty: name") pair per service of a group, in order |
| ServiceMenu.AppendGroup | app.py:127-130 | the inner loop extends the options with the group's keys and assigns each key its caption |
| ServiceMenu.FlattenOptions | app.py:124-130 | the options are the visited keys in order; the labels are the captions assigned in turn |
| ServiceMenu.AssignDistinct | app.py:130 | assigning pairs with distinct keys builds exactly those pairs |
| ServiceMenu.EntriesDistinct | app.py:126-129 | flattening a correct grouping of a table with distinct keys never visits a key twice |
| ServiceMenu.MenuLabelsFiled | app.py:128-130 | a filed service is offered with caption "specialty: name" |
| ServiceMenu.MenuKeyFromTable | app.py:124-129 | every offered key is a table key |
| ServiceMenu.MenuOfGrouping | app.py:124-130 | for any correct grouping: each key offered once; the labels equal the pairs; each row captioned "specialty: name"; nothing else offered |
| ServiceMenu.TableMenu | app.py:119-130 | the same for the rotation table's grouping |
| Display.LeadingRunUnique | app.py:275 | a string has at most one first run of digits |
| Display.RunEnd | app.py:275 | the run that starts at i consists of digits and ends at the end or before a non-digit |
| Display.SearchFrom | app.py:275 | scanning from i finds nothing iff the string has no digit; otherwise it finds the first digit run |
| Display.SearchDigits | app.py:275 | `re.search(r'(\d+)', s)`: no match iff no digit; a match is the first run of digits, taken whole |
| Display.StringScore | app.py:273-276 | a string without digits shows 7; otherwise its first digit run shows its value when it has at most 4300 digits, and `int()` raises the limit `ValueError` when it has more; it fails iff the first run is longer than 4300 digits |
| Display.DisplayScore | app.py:272-276 | a missing score shows 7; a non-string score passes through unchanged, without clamping; a string score is shown as StringScore gives it, error included |
| Display.DisplayScoreExamples | app.py:272-276 | "8/10" shows 8; "Score: 12 of 10" shows 12 |
| Display.DisplayScoreDefaults | app.py:272-276 | "excellent" shows 7; 15 shows 15; a missing score shows 7 |
| Display.DisplayScoreLimit | app.py:276 | a string of n ones converts to an int when n is at most 4300, and raises the limit error for n when it is larger |
| Display.Banner | app.py:314-323 | nine header lines, all text, starting with the title |
| Display.Sections | app.py:324-335 | the four narrative values, or their defaults, at their places; the other lines are text, ending with "STRENGTHS:" |
| Display.HeaderLines | app.py:314-335 | 21 lines from the title to "STRENGTHS:" |
| Display.HeaderValues | app.py:314-335 | the four narrative values at lines 9, 12, 15 and 18; every other header line is text |
| Display.Bullets | app.py:339-340 | one "• item" line per item, in order |
| Display.FooterLines | app.py:351-357 | five lines: the transcript third, the attribution last |
| Display.AppendBullets | app.py:339-340 | the append loop adds exactly the bullet lines |
| Display.AssembleShape | app.py:314-357 | the line list's shape: 28 + s + a lines; the title first; each strength bullet in order at 21+k; the improvements heading; each improvement bullet in order; the transcript third from last; the attribution last |
| Display.AssembleAllText | app.py:314-357 | the lines are all text iff the header and footer lines are |
| Display.ReportLines | app.py:272-357 | the report's line list: banner with the shown score, sections, strength bullets, improvements heading, improvement bullets, footer; or the score's `ValueError`, or the iteration's `TypeError` |
| Display.Report | app.py:272-359 | `"\n".join` of ReportLines, or the error raised on the way: the score's, the iteration's or the join's |
| Display.BuildReport | app.py:314-359 | the append/extend construction and the join give Report |
| Display.ReportLinesShape | app.py:314-357 | the page's line list has the shape above |
| Display.ReportSucceedsIff | app.py:272-359 | the report is produced iff the score can be shown, both lists are iterable and the four narrative values (or defaults) are strings |
| Display.ReportText | app.py:314-359 | the report text opens with the title line, closes with the attribution line, and contains every strength and improvement bullet |
| Display.JoinedText | app.py:359 | joined lines open with the first line and a newline and close with a newline and the last line |
| Values.Repr | app.py:339-340 | `repr()`: None, True/False, decimal ints, quoted and escaped strings, bracketed lists, braced dicts |
| Values.TypeName | feedback_generator.py:145 | `type(v).__name__` for each kind of value |
| Values.EscapeHidesNonPrintable | app.py:339-340 | a control or non-printable character is written as a numeric escape of 4, 6 or 10 printable ASCII characters, never raw |
| Values.EscapeNextLine | app.py:339-340 | U+0085 is written `\x85` |
| Values.EscapeLineSeparator | app.py:339-340 | U+2028 is written `\u2028` |
| Values.EscapePrivateUsePlane | app.py:339-340 | U+F0000 is written `\U000f0000` |
| Values.QuoteStringEscapesWide | app.py:339-340 | `repr("a\x85")` is `'a\x85'` |
| Values.Show | app.py:318-319 | `str()` of a string is the string itself; of an int, its decimal text |
| Values.Iterate | app.py:339 | iteration fails iff the value is not a list, string or dict, with the `TypeError` message; a list yields its items |
| Values.FirstNonString | app.py:359 | the position of the first non-string item, or the length when there is none |
| Values.JoinValues | app.py:359 | `"\n".join` succeeds iff every item is a string |
| Values.Texts | app.py:359 | the texts of an all-string list, item by item |
| Strings.Lower | feedback_generator.py:245 | same length, each character lower-cased |
| Strings.LowerChar | feedback_generator.py:245 | upper-case ASCII letters shift by 32; other characters stay |
| Strings.ContainsIff | feedback_generator.py:247-256 | `needle in hay` iff the needle occurs at some position |
| Strings.ContainsInfix | feedback_generator.py:215 | a string put between two others is contained in the result |
| Strings.JoinContainsEach | feedback_generator.py:185 | every item of a join occurs in the joined text |
| Strings.JoinEnds | app.py:359 | a join of two or more items opens with the first item and closes with the last |
| Strings.Split | feedback_generator.py:242 | `split` yields at least one piece |
| Strings.JoinSplit | feedback_generator.py:242 | joining the pieces with the separator gives back the text |
| Strings.SplitFirstIsPrefix | feedback_generator.py:242 | the first piece is a prefix of the text |
| Strings.SplitFirstCut | feedback_generator.py:242 | the first piece holds no separator; it is the whole text when there is one piece, and a separator follows it otherwise |
| Strings.SplitPiecesHaveNoSeparator | feedback_generator.py:242 | no piece contains the separator |
| Strings.Repeat | app.py:316 | `"=" * n` has n characters, all "=" |
| Strings.NatToStringRoundTrip | app.py:319 | `str(n)` is a non-empty digit string whose value is n |
| OrderedDict.Get | app.py:272 | `d.get(k)` is None iff k is not a key |
| OrderedDict.GetSet | feedback_generator.py:145-146 | after `d[k] = v`, k maps to v and other keys keep their values |
| OrderedDict.KeysSet | feedback_generator.py:145-146 | `d[k] = v` keeps the key order, and appends k when it is new |
| OrderedDict.SetKeepsDistinct | feedback_generator.py:285 | assignment never creates a duplicate key |
| OrderedDict.GetEntry | feedback_generator.py:118 | with distinct keys, `get` returns an entry's value |
| OrderedDict.SetSet | feedback_generator.py:284-285 | assigning a key twice keeps only the second value |
| SessionState.Session.TextToAnalyze | app.py:256 | the edited transcription when it is non-empty, otherwise the original |
| SessionState.Session.constructor | app.py:21-32 | all fields None, both flags False |
| SessionState.Session.RequestTranscription | app.py:200-201 | the transcription flag is set; nothing else changes |
| SessionState.Session.TranscriptionFailed | app.py:213-214 | the transcription flag is cleared; nothing else changes |
| SessionState.Session.FinishTranscription | app.py:208-210 | run only while there is no transcription: the transcription is stored and its flag cleared; nothing else changes |
| SessionState.Session.OpenEditor | app.py:222-223 | the edited text starts as the transcription the first time only |
| SessionState.Session.EditTranscription | app.py:235-239 | a different edited text is stored and clears any feedback; the same text changes nothing |
| SessionState.Session.RequestFeedback | app.py:247-248 | the analysis flag is set; nothing else changes |
| SessionState.Session.RunAnalysis | app.py:254-259 | the generator is given the edited text when non-empty, otherwise the original; its record is stored and that text is recorded as the analysed one |
| SessionState.Session.AnalysisFailed | app.py:262-263 | the analysis flag is cleared; nothing else changes |
| SessionState.Session.DownloadReport | app.py:312-359 | the report is built for the feedback on display, with the text that feedback was generated from as its transcript; that text is still the one the page would analyse |
| SessionState.Session.StartOver | app.py:378-384 | every field back to None and both flags to False |

## Left out

- The OpenAI and xAI clients, the chat and transcription calls, and the
  model name and temperature read from the environment: these are network
  and configuration. The chat call's outcome is the `Completion` parameter.
- `json.loads` itself. It is the `loads` parameter, which may return
  any value or raise.
- Values.Repr: a character counts as non-printable when it is an ASCII
  control, a Latin-1 control, no-break space, soft hyphen, a Unicode space
  or separator, one of the common format characters, in the private-use
  area or on the supplementary private-use planes. Python's full
  `isprintable` table is not modelled, so other unassigned and format
  code points are written raw here where Python escapes them.
- `st.error` in `generate_feedback`, and all Streamlit rendering, CSS,
  buttons and reruns. The button handlers appear only as the session
  methods above.
- The temporary-file handling, the audio upload and recording that set
  `current_audio_file`, and the `os.unlink` in Start Over. These are file
  I/O.
- simple_recorder.py, test_system.py and setup.py. They do microphone I/O,
  threads, environment probes and installs.
- The selector's `format_func` fallback `x.replace("_", " ").title()`.
  It is never reached, because every offered key has a label
  (ServiceMenu.MenuOfGrouping).
- Strings.Lower: only the ASCII letters are case-mapped, because Python's
  Unicode case tables are not modelled. Every keyword is lower-case ASCII.
- Display.StringScore: the digit limit is CPython's default of 4300, as
  in Python 3.11 and later and the 2022 security releases of 3.8 to 3.10.
  Older interpreters have no limit. A limit changed through
  `sys.set_int_max_str_digits` or `PYTHONINTMAXSTRDIGITS` is not modelled.
  The error message follows Python 3.12's wording.
- Display.SearchDigits: `\d` is taken as the ASCII digits 0–9, because
  Python's other Unicode decimal digits are not modelled.
- Values.Show: a float is carried by the text `str()` prints for it,
  because no computation is done on floats.
- Prompts.UserPromptEmbedsTranscript: it states that the header,
  transcript and blank line occur in the user prompt, not their exact
  offset.
- SessionState.Session.RunAnalysis: it takes the feedback generator as a
  function parameter rather than calling `generate_feedback` itself.
  Feedback.FeedbackFor is that function, once the model call and the
  decoder are fixed.
