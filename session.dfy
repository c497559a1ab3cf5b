/** The page state app.py keeps in `st.session_state` between reruns, and the
    transitions that change it: finishing a transcription, opening and editing
    the transcript, analysing it, downloading the report and starting over. */

module SessionState {
  import opened Wrappers
  import opened Values
  import opened Feedback
  import opened Display

  /** A Python string or `None` is truthy when it is a non-empty string. */
  predicate Filled(s: Option<string>)
  {
    s.Some? && s.value != ""
  }

  class Session {
    var transcription: Option<string>
    var editedTranscription: Option<string>
    var feedback: Option<Record>
    var currentAudioFile: Option<string>
    var processingTranscription: bool
    var processingFeedback: bool
    /** The text the feedback on display was generated from. */
    ghost var analysed: string

    /** Feedback and an edited text only ever exist beside a transcription,
        and feedback on display is about the text that would be analysed now. */
    ghost predicate Valid()
      reads this
    {
      && (feedback.Some? ==> transcription.Some?)
      && (editedTranscription.Some? ==> transcription.Some?)
      && (HasFeedback() ==> Filled(transcription) && TextToAnalyze() == Some(analysed))
    }

    /** `if st.session_state.feedback:` — feedback is shown when it is a non-empty dict. */
    predicate HasFeedback()
      reads this
    {
      feedback.Some? && feedback.value != []
    }

    /** `edited_transcription or transcription`: the text that is analysed
        and that the report carries. */
    function TextToAnalyze(): (text: Option<string>)
      reads this
      ensures Filled(editedTranscription) ==> text == editedTranscription
      ensures !Filled(editedTranscription) ==> text == transcription
      ensures Filled(transcription) ==> Filled(text)
    {
      if Filled(editedTranscription) then editedTranscription else transcription
    }

    /** The state a fresh page starts from. */
    constructor ()
      ensures transcription.None? && editedTranscription.None? && feedback.None?
      ensures currentAudioFile.None? && !processingTranscription && !processingFeedback
      ensures Valid()
    {
      transcription := None;
      editedTranscription := None;
      feedback := None;
      currentAudioFile := None;
      processingTranscription := false;
      processingFeedback := false;
      analysed := "";
    }

    /** The Transcribe button: the transcription spinner starts. */
    method RequestTranscription()
      requires Valid()
      modifies this
      ensures analysed == old(analysed)
      ensures Valid() && processingTranscription
      ensures transcription == old(transcription) && editedTranscription == old(editedTranscription)
      ensures feedback == old(feedback) && currentAudioFile == old(currentAudioFile)
      ensures processingFeedback == old(processingFeedback)
    {
      processingTranscription := true;
    }

    /** The transcription call raised: the spinner stops and nothing is stored. */
    method TranscriptionFailed()
      requires Valid()
      modifies this
      ensures analysed == old(analysed)
      ensures Valid() && !processingTranscription
      ensures transcription == old(transcription) && editedTranscription == old(editedTranscription)
      ensures feedback == old(feedback) && currentAudioFile == old(currentAudioFile)
      ensures processingFeedback == old(processingFeedback)
    {
      processingTranscription := false;
    }

    /** A transcription came back: it is stored and the spinner stops. The
        transcription step only runs while there is no transcription. */
    method FinishTranscription(text: string)
      requires Valid() && !Filled(transcription)
      modifies this
      ensures analysed == old(analysed)
      ensures Valid()
      ensures transcription == Some(text) && !processingTranscription
      ensures editedTranscription == old(editedTranscription) && feedback == old(feedback)
      ensures currentAudioFile == old(currentAudioFile) && processingFeedback == old(processingFeedback)
    {
      transcription := Some(text);
      processingTranscription := false;
    }

    /** Opening the editor starts it from the transcription the first time. */
    method OpenEditor()
      requires Valid() && Filled(transcription)
      modifies this
      ensures analysed == old(analysed)
      ensures Valid()
      ensures editedTranscription == if old(editedTranscription).None? then transcription
                                     else old(editedTranscription)
      ensures transcription == old(transcription) && feedback == old(feedback)
      ensures currentAudioFile == old(currentAudioFile)
      ensures processingTranscription == old(processingTranscription)
      ensures processingFeedback == old(processingFeedback)
    {
      if editedTranscription.None? {
        editedTranscription := transcription;
      }
    }

    /** The editor's text changed: it becomes the edited transcription and
        any feedback on display is dropped, since it analysed older text. */
    method EditTranscription(editedText: string)
      requires Valid() && Filled(transcription)
      modifies this
      ensures analysed == old(analysed)
      ensures Valid()
      ensures old(editedTranscription) != Some(editedText) ==>
        && editedTranscription == Some(editedText)
        && feedback == (if old(HasFeedback()) then None else old(feedback))
        && !HasFeedback()
      ensures old(editedTranscription) == Some(editedText) ==>
        editedTranscription == old(editedTranscription) && feedback == old(feedback)
      ensures transcription == old(transcription) && currentAudioFile == old(currentAudioFile)
      ensures processingTranscription == old(processingTranscription)
      ensures processingFeedback == old(processingFeedback)
    {
      if Some(editedText) != editedTranscription {
        editedTranscription := Some(editedText);
        if HasFeedback() {
          feedback := None;
        }
      }
    }

    /** Analysing the transcript: `generate` (the feedback generator's
        `generate_feedback` for the selected service, which `FeedbackFor`
        models) is given the edited text when there is one, otherwise the
        original, and its record is stored. */
    method RunAnalysis(generate: string -> Record)
      requires Valid() && Filled(transcription)
      modifies this
      ensures Valid()
      ensures old(TextToAnalyze()).Some?
      ensures analysed == old(TextToAnalyze()).value
      ensures feedback == Some(generate(analysed))
      ensures !processingFeedback
      ensures transcription == old(transcription) && editedTranscription == old(editedTranscription)
      ensures currentAudioFile == old(currentAudioFile)
      ensures processingTranscription == old(processingTranscription)
    {
      var textToAnalyze := TextToAnalyze().value;
      feedback := Some(generate(textToAnalyze));
      analysed := textToAnalyze;
      processingFeedback := false;
    }

    /** The Generate Feedback button: the analysis spinner starts. */
    method RequestFeedback()
      requires Valid() && Filled(transcription) && !HasFeedback()
      modifies this
      ensures analysed == old(analysed)
      ensures Valid() && processingFeedback
      ensures transcription == old(transcription) && editedTranscription == old(editedTranscription)
      ensures feedback == old(feedback) && currentAudioFile == old(currentAudioFile)
      ensures processingTranscription == old(processingTranscription)
    {
      processingFeedback := true;
    }

    /** The analysis raised: the spinner stops and no feedback is stored. */
    method AnalysisFailed()
      requires Valid()
      modifies this
      ensures analysed == old(analysed)
      ensures Valid() && !processingFeedback
      ensures transcription == old(transcription) && editedTranscription == old(editedTranscription)
      ensures feedback == old(feedback) && currentAudioFile == old(currentAudioFile)
      ensures processingTranscription == old(processingTranscription)
    {
      processingFeedback := false;
    }

    /** The downloadable report for the feedback on display; its transcript
        is the text that feedback was generated from. */
    method DownloadReport(provider: string, model: string) returns (report: Result<string, string>)
      requires Valid() && HasFeedback()
      ensures TextToAnalyze() == Some(analysed)
      ensures report == Report(feedback.value, provider, model, analysed)
    {
      report := BuildReport(feedback.value, provider, model, TextToAnalyze().value);
    }

    /** Start Over: every field back to its initial value. */
    method StartOver()
      modifies this
      ensures transcription.None? && editedTranscription.None? && feedback.None?
      ensures currentAudioFile.None? && !processingTranscription && !processingFeedback
      ensures Valid()
    {
      transcription := None;
      editedTranscription := None;
      feedback := None;
      currentAudioFile := None;
      processingTranscription := false;
      processingFeedback := false;
      analysed := "";
    }
  }
}
