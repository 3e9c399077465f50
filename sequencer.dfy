/**
 * `run_full_pipeline`: the nine stages in a fixed order, stopping at the
 * first that fails. `Run` follows the code stage by stage; `RunSteps` is the
 * same sequencer written once for any list of stages, and module
 * RunProperties proves the two equal and states what a run does.
 */
module Sequencer {
  import opened Outcomes
  import opened Summary
  import opened Voices
  import opened Stages

  /**
   * One outcome per external call a full run makes, in the order it makes
   * them: the recording, the upload, the clock reading that names the job,
   * the job submission, the poll answers, the transcript download, the
   * analysis, the transcript translation, the key phrases for the summary,
   * the summary translation and the two speech syntheses.
   */
  datatype Gateway = Gateway(
    capture: Call<()>,
    upload: Call<()>,
    clock: nat,
    startJob: Call<()>,
    polls: PollTrace,
    download: Call<Download>,
    analysis: Call<TextAnalysis>,
    transcriptTranslation: Call<string>,
    keyPhrases: Call<seq<string>>,
    summaryTranslation: Call<string>,
    transcriptSpeech: Call<()>,
    summarySpeech: Call<()>)

  /** The stages of `run_full_pipeline` that can fail, in order. */
  datatype Step =
    | Recording | Upload | Transcription | Analysis | TranscriptTranslation
    | Summarization | SummaryTranslation | TranscriptSpeech | SummarySpeech

  const Steps: seq<Step> :=
    [Recording, Upload, Transcription, Analysis, TranscriptTranslation,
     Summarization, SummaryTranslation, TranscriptSpeech, SummarySpeech]

  /** The fixed message the run returns when this stage fails. */
  function FailureMessage(s: Step): string
  {
    match s
    case Recording => "Recording failed"
    case Upload => "S3 upload failed"
    case Transcription => "Transcription failed"
    case Analysis => "Sentiment analysis failed"
    case TranscriptTranslation => "Translation failed"
    case Summarization => "Summary failed"
    case SummaryTranslation => "Summary translation failed"
    case TranscriptSpeech => "Transcript TTS failed"
    case SummarySpeech => "Summary TTS failed"
  }

  predicate Succeeds(s: Step, gw: Gateway)
  {
    match s
    case Recording => gw.capture.Returned?
    case Upload => gw.upload.Returned?
    case Transcription => TranscribeOutcome(gw.startJob, gw.polls, gw.download).Success?
    case Analysis => gw.analysis.Returned?
    case TranscriptTranslation => gw.transcriptTranslation.Returned?
    case Summarization => gw.keyPhrases.Returned?
    case SummaryTranslation => gw.summaryTranslation.Returned?
    case TranscriptSpeech => gw.transcriptSpeech.Returned?
    case SummarySpeech => gw.summarySpeech.Returned?
  }

  /** The lines a stage logs, whether it succeeds or fails. */
  function StepLog(s: Step, gw: Gateway, duration: nat, lang: string): seq<string>
  {
    match s
    case Recording => RecordLog(duration, AudioFile, gw.capture)
    case Upload => UploadLog(gw.upload)
    case Transcription => TranscribeLog(gw.clock, gw.startJob, gw.polls, gw.download)
    case Analysis => AnalyzeLog(gw.analysis)
    case TranscriptTranslation => TranslateLog(lang, gw.transcriptTranslation)
    case Summarization => SummarizeLog(gw.keyPhrases)
    case SummaryTranslation => TranslateLog(lang, gw.summaryTranslation)
    case TranscriptSpeech => SpeechLog(TranscriptAudio(lang), gw.transcriptSpeech)
    case SummarySpeech => SpeechLog(SummaryAudio(lang), gw.summarySpeech)
  }

  /** The result keys a stage writes when it succeeds. */
  function KeysOf(s: Step): set<string>
  {
    match s
    case Recording => {"audio_file"}
    case Upload => {"s3_key"}
    case Transcription => {"transcript"}
    case Analysis => {"sentiment", "entities", "key_phrases"}
    case TranscriptTranslation => {}
    case Summarization => {"summary"}
    case SummaryTranslation => {"translated_summary"}
    case TranscriptSpeech => {"tts_translated"}
    case SummarySpeech => {"tts_summary"}
  }

  /** The results after stage `s` has succeeded: its entries written over `results`. */
  function Apply(s: Step, gw: Gateway, lang: string, results: map<string, Value>): map<string, Value>
    requires Succeeds(s, gw)
  {
    match s
    case Recording => results["audio_file" := Text(AudioFile)]
    case Upload => results["s3_key" := Text(S3Key(AudioFile))]
    case Transcription => results["transcript" := Text(TranscribeOutcome(gw.startJob, gw.polls, gw.download).value)]
    case Analysis => results + AnalysisEntries(gw.analysis.value)
    case TranscriptTranslation => results
    case Summarization => results["summary" := Text(Summarize(gw.keyPhrases.value))]
    case SummaryTranslation => results["translated_summary" := Text(gw.summaryTranslation.value)]
    case TranscriptSpeech => results["tts_translated" := Text(TranscriptAudio(lang))]
    case SummarySpeech => results["tts_summary" := Text(SummaryAudio(lang))]
  }

  // ------------------------------------------------ a list of stages

  /** The index of the first stage of `steps` that fails, or `|steps|`. */
  function FirstFailure(gw: Gateway, steps: seq<Step>): (k: nat)
    ensures k <= |steps|
    ensures forall j :: 0 <= j < k ==> Succeeds(steps[j], gw)
    ensures k < |steps| ==> !Succeeds(steps[k], gw)
  {
    if steps == [] || !Succeeds(steps[0], gw) then 0 else 1 + FirstFailure(gw, steps[1..])
  }

  /** How many stages of `steps` a fail-fast run invokes: up to and including the first that fails. */
  function Reached(gw: Gateway, steps: seq<Step>): (n: nat)
    ensures n <= |steps|
  {
    var k := FirstFailure(gw, steps);
    if k < |steps| then k + 1 else |steps|
  }

  /** The log lines of `steps`, one stage after another. */
  function LogsOf(gw: Gateway, duration: nat, lang: string, steps: seq<Step>): seq<string>
  {
    if steps == [] then [] else StepLog(steps[0], gw, duration, lang) + LogsOf(gw, duration, lang, steps[1..])
  }

  /** The keys of `steps`. */
  function KeysOfAll(steps: seq<Step>): set<string>
  {
    if steps == [] then {} else KeysOf(steps[0]) + KeysOfAll(steps[1..])
  }

  // ------------------------------------------------------------ the run

  /** The stages invoked so far, the log and the results. */
  datatype RunState = RunState(invoked: seq<Step>, logs: seq<string>, results: map<string, Value>)

  /** Where a run ends: its final state, and the stage it failed at, if any. */
  datatype RunEnd = RunEnd(state: RunState, failed: Option<Step>)

  const CompletedLine: string := "\nPIPELINE COMPLETED SUCCESSFULLY!"

  /** `st` after invoking stage `s`, which logged `lines`. */
  function Invoke(st: RunState, s: Step, lines: seq<string>): RunState
  {
    st.(invoked := st.invoked + [s], logs := st.logs + lines)
  }

  /** `st` with `key` set to the string `text`. */
  function Store(st: RunState, key: string, text: string): RunState
  {
    st.(results := st.results[key := Text(text)])
  }

  /** `st` after stage `s` has been invoked and has succeeded. */
  function Advance(gw: Gateway, duration: nat, lang: string, s: Step, st: RunState): RunState
    requires Succeeds(s, gw)
  {
    var invoked := Invoke(st, s, StepLog(s, gw, duration, lang));
    invoked.(results := Apply(s, gw, lang, invoked.results))
  }

  /** The fail-fast sequencer over `steps`, starting in state `st`. */
  function RunSteps(gw: Gateway, duration: nat, lang: string, steps: seq<Step>, st: RunState): RunEnd
  {
    if steps == [] then RunEnd(st.(logs := st.logs + [CompletedLine]), None)
    else if !Succeeds(steps[0], gw) then RunEnd(Invoke(st, steps[0], StepLog(steps[0], gw, duration, lang)), Some(steps[0]))
    else RunSteps(gw, duration, lang, steps[1..], Advance(gw, duration, lang, steps[0], st))
  }

  /**
   * What `run_full_pipeline` does from state `st`, in the order of its code:
   * recording, upload and transcription, then `AfterTranscription`.
   */
  function Run(gw: Gateway, duration: nat, lang: string, st: RunState): RunEnd
  {
    var recorded := Invoke(st, Recording, RecordLog(duration, AudioFile, gw.capture));
    if gw.capture.Raised? then RunEnd(recorded, Some(Recording)) else
    var uploaded := Invoke(Store(recorded, "audio_file", AudioFile), Upload, UploadLog(gw.upload));
    if gw.upload.Raised? then RunEnd(uploaded, Some(Upload)) else
    var transcribed := Invoke(Store(uploaded, "s3_key", S3Key(AudioFile)), Transcription,
                              TranscribeLog(gw.clock, gw.startJob, gw.polls, gw.download));
    var outcome := TranscribeOutcome(gw.startJob, gw.polls, gw.download);
    if outcome.Failure? then RunEnd(transcribed, Some(Transcription)) else
    AfterTranscription(gw, lang, Store(transcribed, "transcript", outcome.value))
  }

  /** Sentiment analysis, transcript translation and summary, then `AfterSummary`. */
  function AfterTranscription(gw: Gateway, lang: string, st: RunState): RunEnd
  {
    var analyzed := Invoke(st, Analysis, AnalyzeLog(gw.analysis));
    if gw.analysis.Raised? then RunEnd(analyzed, Some(Analysis)) else
    var translated := Invoke(analyzed.(results := analyzed.results + AnalysisEntries(gw.analysis.value)),
                             TranscriptTranslation, TranslateLog(lang, gw.transcriptTranslation));
    if gw.transcriptTranslation.Raised? then RunEnd(translated, Some(TranscriptTranslation)) else
    var summarized := Invoke(translated, Summarization, SummarizeLog(gw.keyPhrases));
    if gw.keyPhrases.Raised? then RunEnd(summarized, Some(Summarization)) else
    AfterSummary(gw, lang, Store(summarized, "summary", Summarize(gw.keyPhrases.value)))
  }

  /** Summary translation and the two speech syntheses, then the completion line. */
  function AfterSummary(gw: Gateway, lang: string, st: RunState): RunEnd
  {
    var translated := Invoke(st, SummaryTranslation, TranslateLog(lang, gw.summaryTranslation));
    if gw.summaryTranslation.Raised? then RunEnd(translated, Some(SummaryTranslation)) else
    var spoken := Invoke(Store(translated, "translated_summary", gw.summaryTranslation.value), TranscriptSpeech,
                         SpeechLog(TranscriptAudio(lang), gw.transcriptSpeech));
    if gw.transcriptSpeech.Raised? then RunEnd(spoken, Some(TranscriptSpeech)) else
    var spokenSummary := Invoke(Store(spoken, "tts_translated", TranscriptAudio(lang)), SummarySpeech,
                                SpeechLog(SummaryAudio(lang), gw.summarySpeech));
    if gw.summarySpeech.Raised? then RunEnd(spokenSummary, Some(SummarySpeech)) else
    var done := Store(spokenSummary, "tts_summary", SummaryAudio(lang));
    RunEnd(done.(logs := done.logs + [CompletedLine]), None)
  }

  // ------------------------------------------- Translate and Polly requests

  /** The Translate and Polly requests `run_full_pipeline` makes, in the order of its code. */
  function RunRequests(gw: Gateway, lang: string): seq<Request>
  {
    var outcome := TranscribeOutcome(gw.startJob, gw.polls, gw.download);
    if gw.capture.Raised? || gw.upload.Raised? || outcome.Failure? then [] else
    TranscriptionRequests(gw, lang, outcome.value)
  }

  /** The requests from the sentiment analysis of `transcript` on. */
  function TranscriptionRequests(gw: Gateway, lang: string, transcript: string): seq<Request>
  {
    if gw.analysis.Raised? then [] else
    [Translation(transcript, lang)] +
    if gw.transcriptTranslation.Raised? || gw.keyPhrases.Raised? then [] else
    SummaryRequests(gw, lang, gw.transcriptTranslation.value, Summarize(gw.keyPhrases.value))
  }

  /** The requests from the translation of `summary` on, `translated` being the translated transcript. */
  function SummaryRequests(gw: Gateway, lang: string, translated: string, summary: string): seq<Request>
  {
    [Translation(summary, lang)] +
    if gw.summaryTranslation.Raised? then [] else
    [Synthesis(translated, VoiceFor(lang), TranscriptAudio(lang))] +
    if gw.transcriptSpeech.Raised? then [] else
    [Synthesis(gw.summaryTranslation.value, VoiceFor(lang), SummaryAudio(lang))]
  }

  /** What the run returns: the failing stage's message, or the results. */
  function Reply(end: RunEnd): StageResult<map<string, Value>>
  {
    if end.failed.Some? then Failure(FailureMessage(end.failed.value)) else Success(end.state.results)
  }

  /** The ten entries a successful run writes. */
  function FullResults(gw: Gateway, lang: string): map<string, Value>
    requires TranscribeOutcome(gw.startJob, gw.polls, gw.download).Success?
    requires gw.analysis.Returned? && gw.keyPhrases.Returned? && gw.summaryTranslation.Returned?
  {
    map["audio_file" := Text(AudioFile),
        "s3_key" := Text(S3Key(AudioFile)),
        "transcript" := Text(TranscribeOutcome(gw.startJob, gw.polls, gw.download).value),
        "sentiment" := Text(gw.analysis.value.sentiment),
        "entities" := Texts(gw.analysis.value.entities),
        "key_phrases" := Texts(gw.analysis.value.keyPhrases),
        "summary" := Text(Summarize(gw.keyPhrases.value)),
        "translated_summary" := Text(gw.summaryTranslation.value),
        "tts_translated" := Text(TranscriptAudio(lang)),
        "tts_summary" := Text(SummaryAudio(lang))]
  }
}
