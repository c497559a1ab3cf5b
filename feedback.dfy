/** The feedback records `FeedbackGenerator` hands back: the heuristic
    parser for replies that are not JSON, the record built when the model
    call fails, and `generate_feedback`, which chooses between the JSON
    reply, the heuristic record and the failure record and stamps the
    rotation onto the result. A record is a Python dict, held as an
    insertion-ordered list of entries. */
module Feedback {
  import opened Wrappers
  import opened Strings
  import opened OrderedDict
  import opened Values
  import opened Services
  import opened Prompts

  type Record = seq<(string, Value)>

  const ScoreKey := "overall_score"
  const AssessmentKey := "overall_assessment"
  const ContentKey := "clinical_content"
  const ReasoningKey := "clinical_reasoning"
  const StructureKey := "presentation_structure"
  const ServiceFeedbackKey := "service_specific_feedback"
  const StrengthsKey := "strengths"
  const ImprovementsKey := "areas_for_improvement"
  const TeachingKey := "teaching_points"
  const ServiceKey := "service"
  const SpecialtyKey := "specialty"

  /** The nine keys of a feedback record, in the order the records list them. */
  const RecordKeys: seq<string> := [
    ScoreKey, AssessmentKey, ContentKey, ReasoningKey, StructureKey,
    ServiceFeedbackKey, StrengthsKey, ImprovementsKey, TeachingKey]

  /** The five narrative fields the heuristic parser can fill, in the
      priority order of its keyword tests. */
  datatype Field =
    | OverallAssessment
    | ClinicalContent
    | ClinicalReasoning
    | PresentationStructure
    | ServiceSpecific

  function FieldKey(f: Field): (k: string)
    ensures k in RecordKeys
  {
    match f
    case OverallAssessment => AssessmentKey
    case ClinicalContent => ContentKey
    case ClinicalReasoning => ReasoningKey
    case PresentationStructure => StructureKey
    case ServiceSpecific => ServiceFeedbackKey
  }

  /** Position of a field in the keyword tests: lower is checked first. */
  function Rank(f: Field): nat
  {
    match f
    case OverallAssessment => 0
    case ClinicalContent => 1
    case ClinicalReasoning => 2
    case PresentationStructure => 3
    case ServiceSpecific => 4
  }

  /** The lower-case keywords that send a paragraph to a field. */
  function Keywords(f: Field): seq<string>
  {
    match f
    case OverallAssessment => ["overall"]
    case ClinicalContent => ["clinical content", "medical"]
    case ClinicalReasoning => ["reasoning"]
    case PresentationStructure => ["structure", "organization"]
    case ServiceSpecific => ["service", "specific"]
  }

  /** Some keyword of `f` occurs in the lower-cased paragraph. */
  predicate Mentions(section: string, f: Field)
  {
    exists k :: 0 <= k < |Keywords(f)| && Contains(Lower(section), Keywords(f)[k])
  }

  /** Paragraph `i` may go to field `f`: it mentions the field, and the
      overall assessment is only taken from the first paragraph. */
  predicate Eligible(i: nat, section: string, f: Field)
  {
    Mentions(section, f) && (f == OverallAssessment ==> i == 0)
  }

  /** The branch chain of `_parse_unstructured_feedback` for paragraph `i`:
      the field it overwrites, if any. */
  function Classify(i: nat, section: string): Option<Field>
  {
    var low := Lower(section);
    if Contains(low, "overall") && i == 0 then Some(OverallAssessment)
    else if Contains(low, "clinical content") || Contains(low, "medical") then Some(ClinicalContent)
    else if Contains(low, "reasoning") then Some(ClinicalReasoning)
    else if Contains(low, "structure") || Contains(low, "organization") then Some(PresentationStructure)
    else if Contains(low, "service") || Contains(low, "specific") then Some(ServiceSpecific)
    else None
  }

  /** The chain picks the eligible field that comes first in priority order,
      and picks nothing exactly when no field is eligible. */
  lemma ClassifyFirstEligible(i: nat, section: string)
    ensures Classify(i, section).None? <==> forall f :: !Eligible(i, section, f)
    ensures Classify(i, section).Some? ==>
      && Eligible(i, section, Classify(i, section).value)
      && forall f :: Rank(f) < Rank(Classify(i, section).value) ==> !Eligible(i, section, f)
  {
    var low := Lower(section);
    assert Keywords(OverallAssessment)[0] == "overall";
    assert Keywords(ClinicalContent)[0] == "clinical content";
    assert Keywords(ClinicalContent)[1] == "medical";
    assert Keywords(ClinicalReasoning)[0] == "reasoning";
    assert Keywords(PresentationStructure)[0] == "structure";
    assert Keywords(PresentationStructure)[1] == "organization";
    assert Keywords(ServiceSpecific)[0] == "service";
    assert Keywords(ServiceSpecific)[1] == "specific";
    assert Mentions(section, OverallAssessment) <==> Contains(low, "overall");
    assert Mentions(section, ClinicalContent) <==> Contains(low, "clinical content") || Contains(low, "medical");
    assert Mentions(section, ClinicalReasoning) <==> Contains(low, "reasoning");
    assert Mentions(section, PresentationStructure) <==> Contains(low, "structure") || Contains(low, "organization");
    assert Mentions(section, ServiceSpecific) <==> Contains(low, "service") || Contains(low, "specific");
    forall f | Eligible(i, section, f) ensures Classify(i, section).Some? {
      match f
      case OverallAssessment =>
      case ClinicalContent =>
      case ClinicalReasoning =>
      case PresentationStructure =>
      case ServiceSpecific =>
    }
    if Classify(i, section).Some? {
      assert Eligible(i, section, Classify(i, section).value);
    }
  }

  /** Only the first paragraph can become the overall assessment; a later
      paragraph mentioning "overall" is checked against the other keywords. */
  lemma OverallOnlyFirst(i: nat, section: string)
    ensures Classify(i, section) == Some(OverallAssessment) <==> i == 0 && Contains(Lower(section), "overall")
    ensures i != 0 ==> Classify(i, section) == Classify(1, section)
  {
  }

  /** A paragraph that is assigned to a field is not empty. */
  lemma ClassifiedNonEmpty(i: nat, section: string)
    requires Classify(i, section).Some?
    ensures section != ""
  {
    var low := Lower(section);
    if Contains(low, "overall") { ContainsLength(low, "overall"); }
    else if Contains(low, "clinical content") { ContainsLength(low, "clinical content"); }
    else if Contains(low, "medical") { ContainsLength(low, "medical"); }
    else if Contains(low, "reasoning") { ContainsLength(low, "reasoning"); }
    else if Contains(low, "structure") { ContainsLength(low, "structure"); }
    else if Contains(low, "organization") { ContainsLength(low, "organization"); }
    else if Contains(low, "service") { ContainsLength(low, "service"); }
    else { ContainsLength(low, "specific"); }
  }

  /** The record the heuristic parser starts from. */
  function BaseRecord(): Record
  {
    [ (ScoreKey, Int(7)),
      (AssessmentKey, Str("")),
      (ContentKey, Str("")),
      (ReasoningKey, Str("")),
      (StructureKey, Str("")),
      (ServiceFeedbackKey, Str("")),
      (StrengthsKey, List([])),
      (ImprovementsKey, List([])),
      (TeachingKey, List([])) ]
  }

  lemma BaseRecordKeys()
    ensures Keys(BaseRecord()) == RecordKeys
  {
  }

  lemma BaseRecordDistinct()
    ensures DistinctKeys(BaseRecord())
  {
    BaseRecordKeys();
    RecordKeysDistinct();
    assert forall i :: 0 <= i < 9 ==> Keys(BaseRecord())[i] == BaseRecord()[i].0;
  }

  lemma BaseRecordField(f: Field)
    ensures Get(BaseRecord(), FieldKey(f)) == Some(Str(""))
  {
  }

  lemma BaseRecordScore()
    ensures Get(BaseRecord(), ScoreKey) == Some(Int(7))
  {
    BaseRecordDistinct();
    GetEntry(BaseRecord(), 0);
  }

  lemma BaseRecordStrengths()
    ensures Get(BaseRecord(), StrengthsKey) == Some(List([]))
  {
    BaseRecordDistinct();
    GetEntry(BaseRecord(), 6);
  }

  lemma BaseRecordImprovements()
    ensures Get(BaseRecord(), ImprovementsKey) == Some(List([]))
  {
    BaseRecordDistinct();
    GetEntry(BaseRecord(), 7);
  }

  lemma BaseRecordTeaching()
    ensures Get(BaseRecord(), TeachingKey) == Some(List([]))
  {
    BaseRecordDistinct();
    GetEntry(BaseRecord(), 8);
  }

  /** A paragraph together with the field the branch chain assigns it to. */
  type Labelled = seq<(Option<Field>, string)>

  /** The paragraphs of a reply, each with its field. */
  function Label(sections: seq<string>): (ls: Labelled)
    ensures |ls| == |sections|
    ensures forall j :: 0 <= j < |sections| ==> ls[j] == (Classify(j, sections[j]), sections[j])
  {
    seq(|sections|, j requires 0 <= j < |sections| => (Classify(j, sections[j]), sections[j]))
  }

  /** Every paragraph that has a field is non-empty. */
  predicate NonEmptyWhenLabelled(ls: Labelled)
  {
    forall j :: 0 <= j < |ls| && ls[j].0.Some? ==> ls[j].1 != ""
  }

  lemma LabelNonEmpty(sections: seq<string>)
    ensures NonEmptyWhenLabelled(Label(sections))
  {
    forall j | 0 <= j < |sections| && Label(sections)[j].0.Some?
      ensures Label(sections)[j].1 != ""
    {
      ClassifiedNonEmpty(j, sections[j]);
    }
  }

  /** The record after the loop has seen the labelled paragraphs `ls`: each
      paragraph with a field overwrites that field with the paragraph's
      original (not lower-cased) text. */
  function Fill(ls: Labelled): Record
    decreases |ls|
  {
    if ls == [] then BaseRecord()
    else
      var n := |ls| - 1;
      var before := Fill(ls[..n]);
      match ls[n].0
      case None => before
      case Some(f) => Set(before, FieldKey(f), Str(ls[n].1))
  }

  lemma FillStep(ls: Labelled, i: nat)
    requires i < |ls|
    ensures Fill(ls[..i + 1]) ==
      match ls[i].0
      case None => Fill(ls[..i])
      case Some(f) => Set(Fill(ls[..i]), FieldKey(f), Str(ls[i].1))
  {
    assert ls[..i + 1][..i] == ls[..i];
  }

  /** The loop never adds or removes a key. */
  lemma {:induction false} FillKeys(ls: Labelled)
    ensures Keys(Fill(ls)) == RecordKeys
    decreases |ls|
  {
    if ls == [] {
      BaseRecordKeys();
    } else {
      var n := |ls| - 1;
      FillKeys(ls[..n]);
      match ls[n].0
      case None =>
      case Some(f) => KeysSet(Fill(ls[..n]), FieldKey(f), Str(ls[n].1));
    }
  }

  /** Keys other than the five narrative fields keep their starting value. */
  lemma {:induction false} FillKeepsOthers(ls: Labelled, k: string)
    requires forall f :: FieldKey(f) != k
    ensures Get(Fill(ls), k) == Get(BaseRecord(), k)
    decreases |ls|
  {
    if ls != [] {
      var n := |ls| - 1;
      FillKeepsOthers(ls[..n], k);
      match ls[n].0
      case None =>
      case Some(f) => GetSet(Fill(ls[..n]), FieldKey(f), Str(ls[n].1), k);
    }
  }

  lemma FieldKeyInjective(f: Field, g: Field)
    ensures FieldKey(f) == FieldKey(g) ==> f == g
  {
  }

  /** A field no paragraph was assigned to stays empty. */
  lemma {:induction false} FillFieldUnset(ls: Labelled, f: Field)
    requires forall j :: 0 <= j < |ls| ==> ls[j].0 != Some(f)
    ensures Get(Fill(ls), FieldKey(f)) == Some(Str(""))
    decreases |ls|
  {
    if ls == [] {
      BaseRecordField(f);
    } else {
      var n := |ls| - 1;
      var prefix := ls[..n];
      assert forall j :: 0 <= j < |prefix| ==> prefix[j] == ls[j];
      FillFieldUnset(prefix, f);
      FillLastGet(ls, FieldKey(f));
      if ls[n].0.Some? {
        FieldKeyInjective(f, ls[n].0.value);
      }
    }
  }

  /** What the last paragraph does to the value under key `k`. */
  lemma FillLastGet(ls: Labelled, k: string)
    requires ls != []
    ensures Get(Fill(ls), k) ==
      if ls[|ls| - 1].0.Some? && FieldKey(ls[|ls| - 1].0.value) == k then Some(Str(ls[|ls| - 1].1))
      else Get(Fill(ls[..|ls| - 1]), k)
  {
    var n := |ls| - 1;
    match ls[n].0
    case None =>
    case Some(g) => GetSet(Fill(ls[..n]), FieldKey(g), Str(ls[n].1), k);
  }

  /** When several paragraphs are assigned to a field, the last one wins. */
  lemma {:induction false} FillFieldLast(ls: Labelled, f: Field, j: nat)
    requires j < |ls| && ls[j].0 == Some(f)
    requires forall j' :: j < j' < |ls| ==> ls[j'].0 != Some(f)
    ensures Get(Fill(ls), FieldKey(f)) == Some(Str(ls[j].1))
    decreases |ls|
  {
    var n := |ls| - 1;
    FillLastGet(ls, FieldKey(f));
    if j < n {
      var prefix := ls[..n];
      assert prefix[j].0 == Some(f) && forall j' :: j < j' < |prefix| ==> prefix[j'].0 != Some(f) by {
        assert forall j' :: 0 <= j' < |prefix| ==> prefix[j'] == ls[j'];
      }
      FillFieldLast(prefix, f, j);
      if ls[n].0.Some? {
        FieldKeyInjective(f, ls[n].0.value);
      }
    }
  }

  /** Some paragraph was assigned to field `f`. */
  predicate Assigned(ls: Labelled, f: Field)
  {
    exists j :: 0 <= j < |ls| && ls[j].0 == Some(f)
  }

  /** A narrative field holds a non-empty text exactly when some paragraph
      was assigned to it. */
  lemma {:induction false} FillFieldFilled(ls: Labelled, f: Field)
    requires NonEmptyWhenLabelled(ls)
    ensures Get(Fill(ls), FieldKey(f)).Some?
    ensures Get(Fill(ls), FieldKey(f)).value.Str?
    ensures Get(Fill(ls), FieldKey(f)).value.s != "" <==> Assigned(ls, f)
    decreases |ls|
  {
    if ls == [] {
      BaseRecordField(f);
    } else {
      var n := |ls| - 1;
      LabelledPrefix(ls, f);
      FillFieldFilled(ls[..n], f);
      FillLastGet(ls, FieldKey(f));
      if ls[n].0.Some? {
        FieldKeyInjective(f, ls[n].0.value);
      }
    }
  }

  /** What the labelled paragraphs before the last one say. */
  lemma LabelledPrefix(ls: Labelled, f: Field)
    requires ls != [] && NonEmptyWhenLabelled(ls)
    ensures NonEmptyWhenLabelled(ls[..|ls| - 1])
    ensures Assigned(ls, f) <==> Assigned(ls[..|ls| - 1], f) || ls[|ls| - 1].0 == Some(f)
    ensures ls[|ls| - 1].0.Some? ==> ls[|ls| - 1].1 != ""
  {
    var n := |ls| - 1;
    assert forall j :: 0 <= j < n ==> ls[..n][j] == ls[j];
    if Assigned(ls, f) && ls[n].0 != Some(f) {
      var j :| 0 <= j < |ls| && ls[j].0 == Some(f);
      assert ls[..n][j].0 == Some(f);
    }
  }

  /** The three fields whose emptiness triggers the whole-text fallback. */
  predicate CoreField(f: Field)
  {
    f == OverallAssessment || f == ClinicalContent || f == ClinicalReasoning
  }

  /** `not any(feedback[key] for key in [...])` over the three core fields. */
  predicate NeedsFallback(feedback: Record)
  {
    !(Truthy(GetOr(feedback, AssessmentKey, Null))
      || Truthy(GetOr(feedback, ContentKey, Null))
      || Truthy(GetOr(feedback, ReasoningKey, Null)))
  }

  /** The fallback fires exactly when no paragraph went to a core field, so
      matches on structure or service alone do not prevent it. */
  lemma FallbackIff(ls: Labelled)
    requires NonEmptyWhenLabelled(ls)
    ensures NeedsFallback(Fill(ls)) <==>
      !Assigned(ls, OverallAssessment) && !Assigned(ls, ClinicalContent) && !Assigned(ls, ClinicalReasoning)
  {
    FieldTruthy(ls, OverallAssessment);
    FieldTruthy(ls, ClinicalContent);
    FieldTruthy(ls, ClinicalReasoning);
  }

  /** A narrative field is truthy exactly when some paragraph went to it. */
  lemma FieldTruthy(ls: Labelled, f: Field)
    requires NonEmptyWhenLabelled(ls)
    ensures Truthy(GetOr(Fill(ls), FieldKey(f), Null)) <==> Assigned(ls, f)
  {
    FillFieldFilled(ls, f);
  }

  /** The paragraph separator. */
  const Blank := "\n\n"

  /** The last step of `_parse_unstructured_feedback`: the whole reply
      becomes the overall assessment when no core field was filled. */
  function WithFallback(filled: Record, text: string): Record
  {
    if NeedsFallback(filled) then Set(filled, AssessmentKey, Str(text)) else filled
  }

  lemma WithFallbackGet(filled: Record, text: string, k: string)
    ensures Get(WithFallback(filled, text), k) ==
      if k == AssessmentKey && NeedsFallback(filled) then Some(Str(text)) else Get(filled, k)
  {
    GetSet(filled, AssessmentKey, Str(text), k);
  }

  lemma WithFallbackKeys(filled: Record, text: string)
    requires AssessmentKey in Keys(filled)
    ensures Keys(WithFallback(filled, text)) == Keys(filled)
  {
    KeysSet(filled, AssessmentKey, Str(text));
  }

  /** `_parse_unstructured_feedback`: split the reply on blank lines, fill
      fields by keyword, and fall back to the whole text as the overall
      assessment when no core field was filled. */
  function ParseUnstructured(text: string): Record
  {
    WithFallback(Fill(Label(Split(text, Blank))), text)
  }

  /** The heuristic record always holds the nine keys in order. */
  lemma ParseUnstructuredKeys(text: string)
    ensures Keys(ParseUnstructured(text)) == RecordKeys
  {
    var filled := Fill(Label(Split(text, Blank)));
    FillKeys(Label(Split(text, Blank)));
    WithFallbackKeys(filled, text);
  }

  /** A key outside the narrative fields has its starting value in the
      heuristic record. */
  lemma ParseUnstructuredOther(text: string, k: string)
    requires forall f :: FieldKey(f) != k
    ensures Get(ParseUnstructured(text), k) == Get(BaseRecord(), k)
  {
    var filled := Fill(Label(Split(text, Blank)));
    assert k != AssessmentKey by { assert FieldKey(OverallAssessment) == AssessmentKey; }
    FillKeepsOthers(Label(Split(text, Blank)), k);
    WithFallbackGet(filled, text, k);
  }

  lemma ParseUnstructuredScore(text: string)
    ensures Get(ParseUnstructured(text), ScoreKey) == Some(Int(7))
  {
    ParseUnstructuredOther(text, ScoreKey);
    BaseRecordScore();
  }

  lemma ParseUnstructuredStrengths(text: string)
    ensures Get(ParseUnstructured(text), StrengthsKey) == Some(List([]))
  {
    ParseUnstructuredOther(text, StrengthsKey);
    BaseRecordStrengths();
  }

  lemma ParseUnstructuredImprovements(text: string)
    ensures Get(ParseUnstructured(text), ImprovementsKey) == Some(List([]))
  {
    ParseUnstructuredOther(text, ImprovementsKey);
    BaseRecordImprovements();
  }

  lemma ParseUnstructuredTeaching(text: string)
    ensures Get(ParseUnstructured(text), TeachingKey) == Some(List([]))
  {
    ParseUnstructuredOther(text, TeachingKey);
    BaseRecordTeaching();
  }

  /** The heuristic record always holds the nine keys in order, a score of 7
      and three empty lists. */
  lemma ParseUnstructuredShape(text: string)
    ensures Keys(ParseUnstructured(text)) == RecordKeys
    ensures Get(ParseUnstructured(text), ScoreKey) == Some(Int(7))
    ensures Get(ParseUnstructured(text), StrengthsKey) == Some(List([]))
    ensures Get(ParseUnstructured(text), ImprovementsKey) == Some(List([]))
    ensures Get(ParseUnstructured(text), TeachingKey) == Some(List([]))
  {
    ParseUnstructuredKeys(text);
    ParseUnstructuredScore(text);
    ParseUnstructuredStrengths(text);
    ParseUnstructuredImprovements(text);
    ParseUnstructuredTeaching(text);
  }

  /** No paragraph of the reply is assigned to any of the three core fields. */
  predicate NoCoreMatch(text: string)
  {
    forall j :: 0 <= j < |Split(text, Blank)| ==>
      Classify(j, Split(text, Blank)[j]).None? || !CoreField(Classify(j, Split(text, Blank)[j]).value)
  }

  lemma NoCoreMatchIff(text: string)
    ensures var ls := Label(Split(text, Blank));
      NoCoreMatch(text) <==>
      !Assigned(ls, OverallAssessment) && !Assigned(ls, ClinicalContent) && !Assigned(ls, ClinicalReasoning)
  {
    var ls := Label(Split(text, Blank));
    if !NoCoreMatch(text) {
      var j :| 0 <= j < |ls| && Classify(j, Split(text, Blank)[j]).Some?
               && CoreField(Classify(j, Split(text, Blank)[j]).value);
      assert ls[j].0 == Classify(j, Split(text, Blank)[j]);
    }
  }

  /** With no paragraph assigned to a core field, the overall assessment is
      the entire reply and every other key is as the loop left it;
      otherwise the loop's record is returned unchanged. */
  lemma ParseFallback(text: string)
    ensures NoCoreMatch(text) ==> Get(ParseUnstructured(text), AssessmentKey) == Some(Str(text))
    ensures forall k :: k != AssessmentKey ==>
      Get(ParseUnstructured(text), k) == Get(Fill(Label(Split(text, Blank))), k)
    ensures !NoCoreMatch(text) ==> ParseUnstructured(text) == Fill(Label(Split(text, Blank)))
  {
    var ls := Label(Split(text, Blank));
    var filled := Fill(ls);
    LabelNonEmpty(Split(text, Blank));
    FallbackIff(ls);
    NoCoreMatchIff(text);
    forall k ensures Get(WithFallback(filled, text), k) ==
        if k == AssessmentKey && NeedsFallback(filled) then Some(Str(text)) else Get(filled, k) {
      WithFallbackGet(filled, text, k);
    }
  }

  /** A paragraph assigned to a field, with no later paragraph assigned to
      the same field, is what the returned record holds in that field. */
  lemma ParseLastWins(text: string, f: Field, j: nat)
    requires j < |Split(text, Blank)|
    requires Classify(j, Split(text, Blank)[j]) == Some(f)
    requires forall j' :: j < j' < |Split(text, Blank)| ==>
      Classify(j', Split(text, Blank)[j']) != Some(f)
    ensures Get(ParseUnstructured(text), FieldKey(f)) == Some(Str(Split(text, Blank)[j]))
  {
    var ls := Label(Split(text, Blank));
    FillFieldLast(ls, f, j);
    ParseFallback(text);
    if NoCoreMatch(text) {
      assert !CoreField(f);
    }
  }

  /** A field no paragraph was assigned to is empty in the returned record,
      except that the overall assessment takes the whole reply when no core
      field was filled either. */
  lemma ParseFieldUnset(text: string, f: Field)
    requires forall j :: 0 <= j < |Split(text, Blank)| ==> Classify(j, Split(text, Blank)[j]) != Some(f)
    ensures Get(ParseUnstructured(text), FieldKey(f)) ==
      if f == OverallAssessment && NoCoreMatch(text) then Some(Str(text)) else Some(Str(""))
  {
    var ls := Label(Split(text, Blank));
    FillFieldUnset(ls, f);
    ParseFallback(text);
  }

  /** `_parse_unstructured_feedback` as the source runs it: the loop over the
      paragraphs overwrites fields of a dict in place. */
  method ParseUnstructuredFeedback(text: string) returns (feedback: Record)
    ensures feedback == ParseUnstructured(text)
  {
    feedback := BaseRecord();
    var sections := Split(text, Blank);
    ghost var ls := Label(sections);
    assert ls[..0] == [];
    for i := 0 to |sections|
      invariant feedback == Fill(ls[..i])
    {
      FillStep(ls, i);
      feedback := AssignSection(feedback, i, sections[i]);
    }
    assert ls[..|sections|] == ls;
    if !(Truthy(GetOr(feedback, AssessmentKey, Null)) || Truthy(GetOr(feedback, ContentKey, Null))
         || Truthy(GetOr(feedback, ReasoningKey, Null))) {
      feedback := Set(feedback, AssessmentKey, Str(text));
    }
  }

  /** The body of the loop over paragraphs: the branch chain on the
      lower-cased paragraph stores the paragraph under the field it picks. */
  method AssignSection(feedback: Record, i: nat, section: string) returns (feedback': Record)
    ensures feedback' == match Classify(i, section)
                         case None => feedback
                         case Some(f) => Set(feedback, FieldKey(f), Str(section))
  {
    var low := Lower(section);
    if Contains(low, "overall") && i == 0 {
      feedback' := Set(feedback, AssessmentKey, Str(section));
    } else if Contains(low, "clinical content") || Contains(low, "medical") {
      feedback' := Set(feedback, ContentKey, Str(section));
    } else if Contains(low, "reasoning") {
      feedback' := Set(feedback, ReasoningKey, Str(section));
    } else if Contains(low, "structure") || Contains(low, "organization") {
      feedback' := Set(feedback, StructureKey, Str(section));
    } else if Contains(low, "service") || Contains(low, "specific") {
      feedback' := Set(feedback, ServiceFeedbackKey, Str(section));
    } else {
      feedback' := feedback;
    }
  }

  const ErrorPrefix := "Unable to generate feedback due to an error: "
  const Unavailable := "Feedback unavailable due to technical error."
  const TechnicalIssue := "Technical issue prevented feedback generation"
  const TryAgain := "Please try again or check your API configuration"

  /** `_create_error_feedback`: the record shown when the model call fails. */
  function ErrorFeedback(message: string): Record
  {
    [ (ScoreKey, Int(0)),
      (AssessmentKey, Str(ErrorPrefix + message)),
      (ContentKey, Str(Unavailable)),
      (ReasoningKey, Str(Unavailable)),
      (StructureKey, Str(Unavailable)),
      (ServiceFeedbackKey, Str(Unavailable)),
      (StrengthsKey, List([])),
      (ImprovementsKey, List([Str(TechnicalIssue)])),
      (TeachingKey, List([Str(TryAgain)])) ]
  }

  /** The failure record: the nine keys and no rotation keys, a score of 0,
      the message after the fixed prefix, no strengths and exactly one
      improvement item. */
  lemma ErrorFeedbackShape(message: string)
    ensures Keys(ErrorFeedback(message)) == RecordKeys
    ensures ServiceKey !in Keys(ErrorFeedback(message))
    ensures SpecialtyKey !in Keys(ErrorFeedback(message))
    ensures Get(ErrorFeedback(message), ScoreKey) == Some(Int(0))
    ensures Get(ErrorFeedback(message), AssessmentKey) == Some(Str(ErrorPrefix + message))
    ensures Get(ErrorFeedback(message), StrengthsKey) == Some(List([]))
    ensures Get(ErrorFeedback(message), ImprovementsKey).Some?
    ensures Get(ErrorFeedback(message), ImprovementsKey).value.List?
    ensures |Get(ErrorFeedback(message), ImprovementsKey).value.items| == 1
  {
    var e := ErrorFeedback(message);
    assert Keys(e) == RecordKeys;
    RotationKeysApart();
    assert DistinctKeys(e) by {
      RecordKeysDistinct();
    }
    GetEntry(e, 0);
    GetEntry(e, 1);
    GetEntry(e, 6);
    GetEntry(e, 7);
  }

  /** The nine record keys are distinct. */
  lemma RecordKeysDistinct()
    ensures forall i, j :: 0 <= i < j < |RecordKeys| ==> RecordKeys[i] != RecordKeys[j]
  {
  }

  /** The rotation keys are not among the nine record keys. */
  lemma RotationKeysApart()
    ensures ServiceKey !in RecordKeys && SpecialtyKey !in RecordKeys
  {
  }

  /** What the chat-completion call gives back: the reply text, a reply
      without content (`message.content` is `None`), or the failure the
      client raised, by its message. */
  datatype Completion = Reply(text: string) | EmptyReply | CallFailed(message: string)

  /** What `json.loads` does with a reply: it returns a value, raises
      `JSONDecodeError`, or raises some other exception (a `RecursionError`
      on deeply nested input, say), here by its message. */
  datatype Decoding = Decoded(value: Value) | DecodeError | Raised(message: string)

  /** `str(e)` for the `TypeError` of `json.loads(None)`. */
  const NoTextError := "the JSON object must be str, bytes or bytearray, not NoneType"

  /** `str(e)` for the `TypeError` of `v['service'] = ...` on a decoded
      value that is not a dict. */
  function AssignmentError(v: Value): string
  {
    if v.List? then "list indices must be integers or slices, not str"
    else "'" + TypeName(v) + "' object does not support item assignment"
  }

  /** `feedback['service'] = ...; feedback['specialty'] = ...`. */
  function Stamp(feedback: Record, ctx: ServiceContext): Record
  {
    Set(Set(feedback, ServiceKey, Str(ctx.name)), SpecialtyKey, Str(ctx.specialty))
  }

  /** Stamping sets the two rotation keys and leaves every other key alone. */
  lemma StampGet(feedback: Record, ctx: ServiceContext, k: string)
    ensures Get(Stamp(feedback, ctx), k) ==
      if k == SpecialtyKey then Some(Str(ctx.specialty))
      else if k == ServiceKey then Some(Str(ctx.name))
      else Get(feedback, k)
  {
    GetSet(Set(feedback, ServiceKey, Str(ctx.name)), SpecialtyKey, Str(ctx.specialty), k);
    GetSet(feedback, ServiceKey, Str(ctx.name), k);
  }

  /** What `generate_feedback` makes of the model's answer for the
      selected context `ctx`, given what `json.loads` does with each text. */
  function Respond(ctx: ServiceContext, response: Completion, loads: string -> Decoding): Record
  {
    match response
    case CallFailed(m) => ErrorFeedback(m)
    case EmptyReply => ErrorFeedback(NoTextError)
    case Reply(text) =>
      match loads(text)
      case DecodeError => Stamp(ParseUnstructured(text), ctx)
      case Raised(m) => ErrorFeedback(m)
      case Decoded(Dict(entries)) => Stamp(entries, ctx)
      case Decoded(v) => ErrorFeedback(AssignmentError(v))
  }

  /** What `generate_feedback` returns for a transcript and a rotation key,
      given the model's answer to the two prompts. */
  function FeedbackFor(transcription: string, key: string,
                       complete: (string, string) -> Completion,
                       loads: string -> Decoding): Record
  {
    var ctx := Context(SelectRotation(key));
    Respond(ctx, complete(SystemPrompt(ctx), UserPrompt(transcription, ctx)), loads)
  }

  /** The dict a reply yields before the rotation keys are added: the
      decoded dict, or the heuristic record when the reply is not JSON. */
  function Parsed(text: string, loads: string -> Decoding): Record
    requires loads(text).DecodeError? || (loads(text).Decoded? && loads(text).value.Dict?)
  {
    if loads(text).DecodeError? then ParseUnstructured(text) else loads(text).value.entries
  }

  lemma RespondIsStamp(ctx: ServiceContext, text: string, loads: string -> Decoding)
    requires loads(text).DecodeError? || (loads(text).Decoded? && loads(text).value.Dict?)
    ensures Respond(ctx, Reply(text), loads) == Stamp(Parsed(text, loads), ctx)
  {
  }

  /** A reply that decodes to a dict, or does not decode at all, comes back
      stamped with the context's name and specialty. */
  lemma RespondStamped(ctx: ServiceContext, text: string, loads: string -> Decoding)
    requires loads(text).DecodeError? || (loads(text).Decoded? && loads(text).value.Dict?)
    ensures Get(Respond(ctx, Reply(text), loads), ServiceKey) == Some(Str(ctx.name))
    ensures Get(Respond(ctx, Reply(text), loads), SpecialtyKey) == Some(Str(ctx.specialty))
  {
    RespondIsStamp(ctx, text, loads);
    StampGet(Parsed(text, loads), ctx, ServiceKey);
    StampGet(Parsed(text, loads), ctx, SpecialtyKey);
  }

  /** Every other key is as the decoded dict or the heuristic parser gave it. */
  lemma RespondKeepsOthers(ctx: ServiceContext, text: string, loads: string -> Decoding, k: string)
    requires loads(text).DecodeError? || (loads(text).Decoded? && loads(text).value.Dict?)
    requires k != ServiceKey && k != SpecialtyKey
    ensures Get(Respond(ctx, Reply(text), loads), k) == Get(Parsed(text, loads), k)
  {
    RespondIsStamp(ctx, text, loads);
    StampGet(Parsed(text, loads), ctx, k);
  }

  /** A reply that is not JSON yields the heuristic record: the nine keys
      followed by the two rotation keys. */
  lemma RespondHeuristicKeys(ctx: ServiceContext, text: string, loads: string -> Decoding)
    requires loads(text).DecodeError?
    ensures Keys(Respond(ctx, Reply(text), loads)) == RecordKeys + [ServiceKey, SpecialtyKey]
  {
    var parsed := ParseUnstructured(text);
    ParseUnstructuredKeys(text);
    RotationKeysApart();
    KeysSet(parsed, ServiceKey, Str(ctx.name));
    KeysSet(Set(parsed, ServiceKey, Str(ctx.name)), SpecialtyKey, Str(ctx.specialty));
  }

  /** A failed call yields the failure record carrying the call's message,
      without the rotation keys; so does a reply without content, and a
      reply whose decoding raises something other than `JSONDecodeError`,
      and a reply that decodes to something other than a dict, each with the
      message of the exception raised. */
  lemma RespondOnError(ctx: ServiceContext, response: Completion, loads: string -> Decoding)
    requires response.CallFailed? || response.EmptyReply?
      || loads(response.text).Raised?
      || (loads(response.text).Decoded? && !loads(response.text).value.Dict?)
    ensures var m := if response.CallFailed? then response.message
                     else if response.EmptyReply? then NoTextError
                     else if loads(response.text).Raised? then loads(response.text).message
                     else AssignmentError(loads(response.text).value);
      && Respond(ctx, response, loads) == ErrorFeedback(m)
      && Get(Respond(ctx, response, loads), ScoreKey) == Some(Int(0))
      && Get(Respond(ctx, response, loads), AssessmentKey) == Some(Str(ErrorPrefix + m))
      && ServiceKey !in Keys(Respond(ctx, response, loads))
      && SpecialtyKey !in Keys(Respond(ctx, response, loads))
  {
    match response
    case CallFailed(m) => ErrorFeedbackShape(m);
    case EmptyReply => ErrorFeedbackShape(NoTextError);
    case Reply(text) =>
      if loads(text).Raised? {
        ErrorFeedbackShape(loads(text).message);
      } else {
        ErrorFeedbackShape(AssignmentError(loads(text).value));
      }
  }

  /** End to end: the prompts sent for an unknown key list the hospitalist
      service's required elements. */
  lemma UnknownKeyPrompts(transcription: string, key: string)
    requires Unknown(key)
    ensures var ctx := Context(SelectRotation(key));
      && Contains(SystemPrompt(ctx), KeyElementList(Context(InternalMedicineHospitalist)))
      && Contains(UserPrompt(transcription, ctx), KeyElementList(Context(InternalMedicineHospitalist)))
  {
    SystemPromptHasList(Context(InternalMedicineHospitalist));
    UserPromptListsElements(transcription, Context(InternalMedicineHospitalist));
  }

  /** The body of `generate_feedback` after the model call: decode the
      reply or parse it heuristically, then add the rotation keys to the
      dict in place; any exception on the way yields the failure record. */
  method HandleResponse(ctx: ServiceContext, response: Completion, loads: string -> Decoding)
    returns (feedback: Record)
    ensures feedback == Respond(ctx, response, loads)
  {
    if response.CallFailed? {
      return ErrorFeedback(response.message);
    }
    if response.EmptyReply? {
      return ErrorFeedback(NoTextError);
    }
    var feedbackText := response.text;
    var decoded := loads(feedbackText);
    if decoded.DecodeError? {
      feedback := ParseUnstructuredFeedback(feedbackText);
    } else if decoded.Raised? {
      return ErrorFeedback(decoded.message);
    } else if decoded.value.Dict? {
      feedback := decoded.value.entries;
    } else {
      return ErrorFeedback(AssignmentError(decoded.value));
    }
    feedback := Set(feedback, ServiceKey, Str(ctx.name));
    feedback := Set(feedback, SpecialtyKey, Str(ctx.specialty));
  }

  /** `generate_feedback` as the source runs it: look up the rotation, build
      the two prompts, call the model with them and handle its answer. */
  method GenerateFeedback(transcription: string, key: string,
                          complete: (string, string) -> Completion,
                          loads: string -> Decoding)
    returns (feedback: Record)
    ensures feedback == FeedbackFor(transcription, key, complete, loads)
  {
    var serviceContext := Context(SelectRotation(key));
    var systemPrompt := SystemPrompt(serviceContext);
    var userPrompt := UserPrompt(transcription, serviceContext);
    var response := complete(systemPrompt, userPrompt);
    feedback := HandleResponse(serviceContext, response, loads);
  }
}
