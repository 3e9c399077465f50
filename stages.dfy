/**
 * What each stage of `AudioProcessingPipeline` does to a run, as pure
 * functions of the outcomes of its external calls: the log lines it appends,
 * the stage result it returns and the result entries it writes. The class in
 * module Pipeline is proved to do exactly this.
 */
module Stages {
  import opened Outcomes
  import opened Summary
  import opened Voices

  // ---------------------------------------------------------------- names

  /** The default file `record_audio` saves the recording to. */
  const AudioFile: string := "audio.wav"

  /** The S3 object key an audio file is uploaded under. */
  function S3Key(audioFile: string): string { "audio/" + audioFile }

  /** The transcription job name made from the clock reading `int(time.time())`. */
  function JobName(clock: nat): string { "transcribe_job_" + NatToString(clock) }

  /** Synthesized speech of the translated transcript. */
  function TranscriptAudio(lang: string): string { "transcript_" + lang + ".mp3" }

  /** Synthesized speech of the translated summary. */
  function SummaryAudio(lang: string): string { "summary_" + lang + ".mp3" }

  /** The result keys whose values are lists; every other key holds a string. */
  const ListKeys: set<string> := {"entities", "key_phrases"}

  /** Every result is a list exactly when its key is one of `ListKeys`. */
  ghost predicate Typed(results: map<string, Value>)
  {
    forall key :: key in results ==> (results[key].Texts? <==> key in ListKeys)
  }

  // ------------------------------------------------- external call payloads

  /** What the three Comprehend calls of `analyze_sentiment` returned. */
  datatype TextAnalysis = TextAnalysis(sentiment: string, entities: seq<string>, keyPhrases: seq<string>)

  /**
   * The `requests.get` of the transcript document: its status code, its body,
   * and what extracting `results.transcripts[0].transcript` from the parsed
   * JSON gives (a raised error for malformed JSON or a missing field).
   */
  datatype Download = Download(statusCode: int, body: string, transcript: Call<string>)

  /** Python's `str.isspace` for one character (what `strip()` removes). */
  predicate IsSpace(c: char)
  {
    c in {'\t', '\n', '\U{B}', '\U{C}', '\r', '\U{1C}', '\U{1D}', '\U{1E}', '\U{1F}', ' ',
          '\U{85}', '\U{A0}', '\U{1680}', '\U{2028}', '\U{2029}', '\U{202F}', '\U{205F}', '\U{3000}'}
    || ('\U{2000}' <= c <= '\U{200A}')
  }

  /** `text.strip() == ""`. */
  predicate Blank(text: string)
  {
    forall i :: 0 <= i < |text| ==> IsSpace(text[i])
  }

  // ------------------------------------------------------------- polling

  predicate Terminal(state: string) { state == "COMPLETED" || state == "FAILED" }

  /** A poll answer that ends the loop: a terminal state or a raised error. */
  predicate Stops(answer: Call<string>) { answer.Raised? || Terminal(answer.value) }

  /** Some answer of the trace stops the loop. */
  predicate Halts(polls: seq<Call<string>>)
  {
    |polls| > 0 && (Stops(polls[0]) || Halts(polls[1..]))
  }

  /**
   * The answers `get_transcription_job` gives, in order, up to one that
   * stops the loop. A job that never stops is not part of the model.
   */
  type PollTrace = polls: seq<Call<string>> | Halts(polls) witness [Raised("")]

  /** The index of the poll answer that ends the loop: the first stopping one. */
  function PollStop(polls: seq<Call<string>>): (k: nat)
    requires Halts(polls)
    ensures k < |polls| && Stops(polls[k])
    ensures forall j :: 0 <= j < k ==> !Stops(polls[j])
  {
    if Stops(polls[0]) then 0
    else 1 + PollStop(polls[1..])
  }

  /** One "Status: s" line per non-terminal state the loop waited on. */
  function StatusLines(pending: seq<Call<string>>): seq<string>
    requires forall j :: 0 <= j < |pending| ==> pending[j].Returned?
  {
    seq(|pending|, j requires 0 <= j < |pending| => "Status: " + pending[j].value)
  }

  // -------------------------------------------------------- stage effects

  function RecordLog(duration: nat, audioFile: string, capture: Call<()>): seq<string>
  {
    ["\U{1F399} Recording for " + NatToString(duration) + " seconds..."] +
    match capture
    case Returned(_) => [" Audio recorded and saved as " + audioFile]
    case Raised(e) => ["Recording failed: " + e]
  }

  function UploadLog(upload: Call<()>): seq<string>
  {
    ["\U{2B06} Uploading audio to S3..."] +
    match upload
    case Returned(_) => ["Uploaded to S3 successfully!"]
    case Raised(e) => [" S3 Upload Failed: " + e]
  }

  /** The stage result of `transcribe_audio` once the job has completed. */
  function DownloadOutcome(download: Call<Download>): StageResult<string>
  {
    match download
    case Raised(e) => Failure(e)
    case Returned(d) =>
      if d.statusCode == 200 && !Blank(d.body) then
        match d.transcript
        case Raised(e) => Failure(e)
        case Returned(t) => Success(t)
      else Failure("Failed to download transcript")
  }

  /** The stage result of `transcribe_audio` after the poll loop has stopped at `answer`. */
  function Verdict(answer: Call<string>, download: Call<Download>): StageResult<string>
  {
    if answer.Raised? then Failure(answer.error)
    else if answer.value == "FAILED" then Failure("Transcription failed")
    else DownloadOutcome(download)
  }

  /** The stage result of `transcribe_audio`. */
  function TranscribeOutcome(start: Call<()>, polls: PollTrace, download: Call<Download>): StageResult<string>
  {
    if start.Raised? then Failure(start.error)
    else
      Verdict(polls[PollStop(polls)], download)
  }

  /** What `transcribe_audio` logs once the job has completed. */
  function DownloadLog(download: Call<Download>): seq<string>
  {
    match download
    case Raised(e) => [" Transcription error: " + e]
    case Returned(d) =>
      if d.statusCode == 200 && !Blank(d.body) then
        match d.transcript
        case Raised(e) => [" Transcription error: " + e]
        case Returned(t) => [" Transcribed Text: " + t]
      else [" Failed to download valid transcript."]
  }

  /** What `transcribe_audio` logs after the poll loop has stopped at `answer`. */
  function VerdictLog(answer: Call<string>, download: Call<Download>): seq<string>
  {
    if answer.Raised? then [" Transcription error: " + answer.error]
    else if answer.value == "FAILED" then [" Transcription failed."]
    else [" Transcription completed!"] + DownloadLog(download)
  }

  function TranscribeLog(clock: nat, start: Call<()>, polls: PollTrace, download: Call<Download>): seq<string>
  {
    ["Starting Transcription Job: " + JobName(clock)] +
    if start.Raised? then [" Transcription error: " + start.error]
    else
      var k := PollStop(polls);
      ["Waiting for transcription to finish..."] + StatusLines(polls[..k]) + VerdictLog(polls[k], download)
  }

  function AnalyzeLog(analysis: Call<TextAnalysis>): seq<string>
  {
    [" Analyzing text sentiment with Comprehend..."] +
    match analysis
    case Returned(a) => [" Sentiment: " + a.sentiment]
    case Raised(e) => [" Analysis error: " + e]
  }

  function AnalysisEntries(a: TextAnalysis): map<string, Value>
  {
    map["sentiment" := Text(a.sentiment), "entities" := Texts(a.entities), "key_phrases" := Texts(a.keyPhrases)]
  }

  function TranslateLog(lang: string, translation: Call<string>): seq<string>
  {
    ["Translating text to " + lang + "..."] +
    match translation
    case Returned(t) => ["Translated Text: " + t]
    case Raised(e) => [" Translation error: " + e]
  }

  function SpeechLog(outputFile: string, speech: Call<()>): seq<string>
  {
    [" Converting text to speech: " + outputFile] +
    match speech
    case Returned(_) => ["Audio saved as " + outputFile]
    case Raised(e) => ["Text-to-speech error: " + e]
  }

  /**
   * A request to Amazon Translate (source language English) or to Polly
   * (mp3 output), with the arguments the code passes it.
   */
  datatype Request = Translation(text: string, targetLang: string) | Synthesis(text: string, voiceId: string, outputFile: string)

  /** Every translation in `requests` targets `lang`, and every synthesis speaks with the voice the table gives `lang`. */
  predicate AddressedTo(requests: seq<Request>, lang: string)
  {
    forall i :: 0 <= i < |requests| ==>
      match requests[i]
      case Translation(_, target) => target == lang
      case Synthesis(_, voice, _) => voice == VoiceFor(lang)
  }

  function SummarizeLog(keyPhrases: Call<seq<string>>): seq<string>
  {
    ["Summarizing text..."] +
    match keyPhrases
    case Returned(p) => ["Summary generated:\n" + Summarize(p)]
    case Raised(e) => ["Summarization error: " + e]
  }
}
