/**
 * What `run_full_pipeline` does, stated over the sequencer of module
 * Sequencer: which stages it invokes, what it returns, what it logs and
 * which result entries it writes, for every combination of call outcomes.
 */
module RunProperties {
  import opened Outcomes
  import opened Summary
  import opened Voices
  import opened Stages
  import opened Sequencer

  // ------------------------------------------ the code order is the sequencer

  lemma AfterSummaryIsRunSteps(gw: Gateway, duration: nat, lang: string, st: RunState)
    ensures AfterSummary(gw, lang, st) == RunSteps(gw, duration, lang, Steps[6..], st)
  {
    var late := Steps[6..];
    assert late == [SummaryTranslation, TranscriptSpeech, SummarySpeech];
    if Succeeds(SummaryTranslation, gw) {
      var a := Advance(gw, duration, lang, SummaryTranslation, st);
      assert late[1..] == [TranscriptSpeech, SummarySpeech];
      if Succeeds(TranscriptSpeech, gw) {
        var b := Advance(gw, duration, lang, TranscriptSpeech, a);
        assert late[1..][1..] == [SummarySpeech];
        assert RunSteps(gw, duration, lang, late, st) == RunSteps(gw, duration, lang, late[1..], a);
        assert RunSteps(gw, duration, lang, late[1..], a) == RunSteps(gw, duration, lang, late[1..][1..], b);
        if Succeeds(SummarySpeech, gw) {
          var c := Advance(gw, duration, lang, SummarySpeech, b);
          assert late[1..][1..][1..] == [];
          assert RunSteps(gw, duration, lang, late[1..][1..], b) == RunSteps(gw, duration, lang, [], c);
          assert c == Store(Invoke(b, SummarySpeech, SpeechLog(SummaryAudio(lang), gw.summarySpeech)), "tts_summary", SummaryAudio(lang));
        }
      }
    }
  }

  lemma AfterTranscriptionIsRunSteps(gw: Gateway, duration: nat, lang: string, st: RunState)
    ensures AfterTranscription(gw, lang, st) == RunSteps(gw, duration, lang, Steps[3..], st)
  {
    var middle := Steps[3..];
    assert middle[0] == Analysis && middle[1..][0] == TranscriptTranslation && middle[1..][1..][0] == Summarization;
    if Succeeds(Analysis, gw) {
      var a := Advance(gw, duration, lang, Analysis, st);
      var analyzed := Invoke(st, Analysis, AnalyzeLog(gw.analysis));
      assert a == analyzed.(results := analyzed.results + AnalysisEntries(gw.analysis.value));
      assert RunSteps(gw, duration, lang, middle, st) == RunSteps(gw, duration, lang, middle[1..], a);
      if Succeeds(TranscriptTranslation, gw) {
        var b := Advance(gw, duration, lang, TranscriptTranslation, a);
        assert b == Invoke(a, TranscriptTranslation, TranslateLog(lang, gw.transcriptTranslation));
        assert RunSteps(gw, duration, lang, middle[1..], a) == RunSteps(gw, duration, lang, middle[1..][1..], b);
        if Succeeds(Summarization, gw) {
          var c := Advance(gw, duration, lang, Summarization, b);
          assert c == Store(Invoke(b, Summarization, SummarizeLog(gw.keyPhrases)), "summary", Summarize(gw.keyPhrases.value));
          assert middle[1..][1..][1..] == Steps[6..];
          assert RunSteps(gw, duration, lang, middle[1..][1..], b) == RunSteps(gw, duration, lang, Steps[6..], c);
          AfterSummaryIsRunSteps(gw, duration, lang, c);
        }
      }
    }
  }

  /** The stage-by-stage order of `run_full_pipeline` is the fail-fast sequencer over `Steps`. */
  lemma RunIsRunSteps(gw: Gateway, duration: nat, lang: string, st: RunState)
    ensures Run(gw, duration, lang, st) == RunSteps(gw, duration, lang, Steps, st)
  {
    assert Steps[0] == Recording && Steps[1..][0] == Upload && Steps[1..][1..][0] == Transcription;
    if Succeeds(Recording, gw) {
      var a := Advance(gw, duration, lang, Recording, st);
      assert a == Store(Invoke(st, Recording, RecordLog(duration, AudioFile, gw.capture)), "audio_file", AudioFile);
      assert RunSteps(gw, duration, lang, Steps, st) == RunSteps(gw, duration, lang, Steps[1..], a);
      if Succeeds(Upload, gw) {
        var b := Advance(gw, duration, lang, Upload, a);
        assert b == Store(Invoke(a, Upload, UploadLog(gw.upload)), "s3_key", S3Key(AudioFile));
        assert RunSteps(gw, duration, lang, Steps[1..], a) == RunSteps(gw, duration, lang, Steps[1..][1..], b);
        if Succeeds(Transcription, gw) {
          var c := Advance(gw, duration, lang, Transcription, b);
          assert c == Store(Invoke(b, Transcription, TranscribeLog(gw.clock, gw.startJob, gw.polls, gw.download)),
                            "transcript", TranscribeOutcome(gw.startJob, gw.polls, gw.download).value);
          assert Steps[1..][1..][1..] == Steps[3..];
          assert RunSteps(gw, duration, lang, Steps[1..][1..], b) == RunSteps(gw, duration, lang, Steps[3..], c);
          AfterTranscriptionIsRunSteps(gw, duration, lang, c);
        }
      }
    }
  }

  // ------------------------------------------------- one stage at a time

  /** A succeeding stage adds exactly its own keys. */
  lemma ApplyKeys(s: Step, gw: Gateway, lang: string, results: map<string, Value>)
    requires Succeeds(s, gw)
    ensures Apply(s, gw, lang, results).Keys == results.Keys + KeysOf(s)
  {
  }

  /** A succeeding stage leaves every entry outside its own keys as it was. */
  lemma ApplyKeeps(s: Step, gw: Gateway, lang: string, results: map<string, Value>, key: string)
    requires Succeeds(s, gw) && key in results && key !in KeysOf(s)
    ensures Apply(s, gw, lang, results)[key] == results[key]
  {
  }

  /** A succeeding stage writes lists under `ListKeys` and strings elsewhere. */
  lemma ApplyTyped(s: Step, gw: Gateway, lang: string, results: map<string, Value>)
    requires Succeeds(s, gw) && Typed(results)
    ensures Typed(Apply(s, gw, lang, results))
  {
  }

  // ---------------------------------------------------- the whole sequence

  /** The run reports the first stage that fails, or none. */
  lemma {:induction false} RunStepsFailed(gw: Gateway, duration: nat, lang: string, steps: seq<Step>, st: RunState)
    ensures var k := FirstFailure(gw, steps);
      RunSteps(gw, duration, lang, steps, st).failed == if k < |steps| then Some(steps[k]) else None
  {
    if steps != [] && Succeeds(steps[0], gw) {
      RunStepsFailed(gw, duration, lang, steps[1..], Advance(gw, duration, lang, steps[0], st));
    }
  }

  /** The stages invoked are those up to and including the first that fails, in order. */
  lemma {:induction false} RunStepsInvoked(gw: Gateway, duration: nat, lang: string, steps: seq<Step>, st: RunState)
    ensures RunSteps(gw, duration, lang, steps, st).state.invoked == st.invoked + steps[..Reached(gw, steps)]
  {
    if steps == [] {
    } else if !Succeeds(steps[0], gw) {
      assert steps[..1] == [steps[0]];
    } else {
      var next := Advance(gw, duration, lang, steps[0], st);
      RunStepsInvoked(gw, duration, lang, steps[1..], next);
      PrefixCons(st.invoked, steps, Reached(gw, steps));
    }
  }

  /** The log grows by the lines of the invoked stages, then the completion line if none failed. */
  lemma {:induction false} RunStepsLogs(gw: Gateway, duration: nat, lang: string, steps: seq<Step>, st: RunState)
    ensures RunSteps(gw, duration, lang, steps, st).state.logs
      == st.logs + LogsOf(gw, duration, lang, steps[..Reached(gw, steps)])
         + (if FirstFailure(gw, steps) == |steps| then [CompletedLine] else [])
  {
    if steps == [] {
      assert steps[..0] == [];
    } else if !Succeeds(steps[0], gw) {
      assert steps[..1][1..] == [];
    } else {
      var n := Reached(gw, steps);
      var lines := StepLog(steps[0], gw, duration, lang);
      var rest := LogsOf(gw, duration, lang, steps[1..][..n - 1]);
      RunStepsLogs(gw, duration, lang, steps[1..], Advance(gw, duration, lang, steps[0], st));
      assert steps[..n][1..] == steps[1..][..n - 1];
      SeqAssoc(st.logs, lines, rest, if FirstFailure(gw, steps) == |steps| then [CompletedLine] else []);
    }
  }

  /** The keys written are those of the stages before the first failure. */
  lemma {:induction false} RunStepsKeys(gw: Gateway, duration: nat, lang: string, steps: seq<Step>, st: RunState)
    ensures RunSteps(gw, duration, lang, steps, st).state.results.Keys
      == st.results.Keys + KeysOfAll(steps[..FirstFailure(gw, steps)])
  {
    if steps == [] || !Succeeds(steps[0], gw) {
      assert steps[..0] == [];
    } else {
      RunStepsKeys(gw, duration, lang, steps[1..], Advance(gw, duration, lang, steps[0], st));
      ApplyKeys(steps[0], gw, lang, st.results);
      KeysOfAllPrefix(steps, FirstFailure(gw, steps));
    }
  }

  /** The keys of a nonempty prefix are those of its head and of the rest. */
  lemma KeysOfAllPrefix(steps: seq<Step>, k: nat)
    requires 0 < k <= |steps|
    ensures KeysOfAll(steps[..k]) == KeysOf(steps[0]) + KeysOfAll(steps[1..][..k - 1])
  {
    assert steps[..k][1..] == steps[1..][..k - 1];
  }

  /** An entry outside the keys of the stages that succeeded keeps its value. */
  lemma {:induction false} RunStepsKeeps(gw: Gateway, duration: nat, lang: string, steps: seq<Step>, st: RunState, key: string)
    requires key in st.results && key !in KeysOfAll(steps[..FirstFailure(gw, steps)])
    ensures var results := RunSteps(gw, duration, lang, steps, st).state.results;
      key in results && results[key] == st.results[key]
  {
    if steps != [] && Succeeds(steps[0], gw) {
      var k := FirstFailure(gw, steps);
      assert steps[..k][1..] == steps[1..][..k - 1];
      ApplyKeys(steps[0], gw, lang, st.results);
      ApplyKeeps(steps[0], gw, lang, st.results, key);
      RunStepsKeeps(gw, duration, lang, steps[1..], Advance(gw, duration, lang, steps[0], st), key);
    }
  }

  /** Lists stay under `ListKeys` and strings everywhere else. */
  lemma {:induction false} RunStepsTyped(gw: Gateway, duration: nat, lang: string, steps: seq<Step>, st: RunState)
    requires Typed(st.results)
    ensures Typed(RunSteps(gw, duration, lang, steps, st).state.results)
  {
    if steps != [] && Succeeds(steps[0], gw) {
      ApplyTyped(steps[0], gw, lang, st.results);
      RunStepsTyped(gw, duration, lang, steps[1..], Advance(gw, duration, lang, steps[0], st));
    }
  }

  /** Appending a nonempty prefix of `s` is appending its head, then a prefix of its tail. */
  lemma PrefixCons<T>(a: seq<T>, s: seq<T>, n: nat)
    requires 0 < n <= |s|
    ensures a + s[..n] == a + [s[0]] + s[1..][..n - 1]
  {
    assert s[..n] == [s[0]] + s[1..][..n - 1];
  }

  lemma SeqAssoc<T>(a: seq<T>, b: seq<T>, c: seq<T>, d: seq<T>)
    ensures a + b + c + d == a + (b + c) + d
  {
  }

  // ------------------------------------------------------- the full run

  /**
   * `run_full_pipeline` from log `logs0` and results `results0`: it invokes
   * the stages up to the first that fails and no later one, returns that
   * stage's fixed message (or the results), appends the lines of the stages
   * it invoked, writes the keys of the stages before the failure, and
   * leaves every other entry as it was.
   */
  lemma FailFast(gw: Gateway, duration: nat, lang: string, logs0: seq<string>, results0: map<string, Value>)
    ensures var end := Run(gw, duration, lang, RunState([], logs0, results0));
      var k := FirstFailure(gw, Steps);
      && end.state.invoked == Steps[..Reached(gw, Steps)]
      && Reply(end) == (if k < |Steps| then Failure(FailureMessage(Steps[k])) else Success(end.state.results))
      && end.state.logs == logs0 + LogsOf(gw, duration, lang, Steps[..Reached(gw, Steps)])
                           + (if k == |Steps| then [CompletedLine] else [])
      && end.state.results.Keys == results0.Keys + KeysOfAll(Steps[..k])
      && (forall key :: key in results0 && key !in KeysOfAll(Steps[..k]) ==>
            key in end.state.results && end.state.results[key] == results0[key])
  {
    var st := RunState([], logs0, results0);
    RunIsRunSteps(gw, duration, lang, st);
    RunStepsFailed(gw, duration, lang, Steps, st);
    RunStepsInvoked(gw, duration, lang, Steps, st);
    RunStepsLogs(gw, duration, lang, Steps, st);
    RunStepsKeys(gw, duration, lang, Steps, st);
    forall key | key in results0 && key !in KeysOfAll(Steps[..FirstFailure(gw, Steps)]) {
      RunStepsKeeps(gw, duration, lang, Steps, st, key);
    }
  }

  /** A run keeps lists under `ListKeys` and strings under every other key. */
  lemma RunTyped(gw: Gateway, duration: nat, lang: string, st: RunState)
    requires Typed(st.results)
    ensures Typed(Run(gw, duration, lang, st).state.results)
  {
    RunIsRunSteps(gw, duration, lang, st);
    RunStepsTyped(gw, duration, lang, Steps, st);
  }

  /**
   * A run that succeeds has written exactly the ten entries of
   * `FullResults` over what was there; from an empty dictionary those ten
   * are all it holds, and there is no `translated_text`.
   */
  lemma SuccessfulRun(gw: Gateway, duration: nat, lang: string, st: RunState)
    requires Run(gw, duration, lang, st).failed == None
    ensures TranscribeOutcome(gw.startJob, gw.polls, gw.download).Success?
    ensures gw.analysis.Returned? && gw.keyPhrases.Returned? && gw.summaryTranslation.Returned?
    ensures Run(gw, duration, lang, st).state.results == st.results + FullResults(gw, lang)
  {
    var transcript := TranscribeOutcome(gw.startJob, gw.polls, gw.download).value;
    var a := gw.analysis.value;
    assert Run(gw, duration, lang, st).state.results
      == (st.results["audio_file" := Text(AudioFile)]["s3_key" := Text(S3Key(AudioFile))]["transcript" := Text(transcript)]
           + AnalysisEntries(a))
         ["summary" := Text(Summarize(gw.keyPhrases.value))]["translated_summary" := Text(gw.summaryTranslation.value)]
         ["tts_translated" := Text(TranscriptAudio(lang))]["tts_summary" := Text(SummaryAudio(lang))];
    Flatten(st.results, Text(AudioFile), Text(S3Key(AudioFile)), Text(transcript), Text(a.sentiment), Texts(a.entities),
            Texts(a.keyPhrases), Text(Summarize(gw.keyPhrases.value)), Text(gw.summaryTranslation.value),
            Text(TranscriptAudio(lang)), Text(SummaryAudio(lang)));
  }

  /** The ten writes of a successful run, one after another, are one overlay of ten entries. */
  lemma Flatten(m: map<string, Value>, v1: Value, v2: Value, v3: Value, v4: Value, v5: Value,
                v6: Value, v7: Value, v8: Value, v9: Value, v10: Value)
    ensures (m["audio_file" := v1]["s3_key" := v2]["transcript" := v3]
              + map["sentiment" := v4, "entities" := v5, "key_phrases" := v6])
            ["summary" := v7]["translated_summary" := v8]["tts_translated" := v9]["tts_summary" := v10]
         == m + map["audio_file" := v1, "s3_key" := v2, "transcript" := v3, "sentiment" := v4, "entities" := v5,
                    "key_phrases" := v6, "summary" := v7, "translated_summary" := v8, "tts_translated" := v9,
                    "tts_summary" := v10]
  {
  }

  /** From an empty dictionary, a successful run leaves exactly the ten keys and no `translated_text`. */
  lemma FreshSuccessfulRun(gw: Gateway, duration: nat, lang: string, logs0: seq<string>)
    requires Run(gw, duration, lang, RunState([], logs0, map[])).failed == None
    ensures var results := Run(gw, duration, lang, RunState([], logs0, map[])).state.results;
      && results.Keys == {"audio_file", "s3_key", "transcript", "sentiment", "entities", "key_phrases",
                          "summary", "translated_summary", "tts_translated", "tts_summary"}
      && "translated_text" !in results
      && results["tts_translated"] == Text("transcript_" + lang + ".mp3")
      && results["tts_summary"] == Text("summary_" + lang + ".mp3")
      && results["summary"] == Text(Summarize(gw.keyPhrases.value))
  {
    SuccessfulRun(gw, duration, lang, RunState([], logs0, map[]));
    FullResultsKeys(gw, lang);
    assert map[] + FullResults(gw, lang) == FullResults(gw, lang);
  }

  // ------------------------------------------- Translate and Polly requests

  /** Every translation a run requests targets `lang`, and every synthesis speaks with the table's voice for `lang`. */
  lemma RunRequestsAddressed(gw: Gateway, lang: string)
    ensures AddressedTo(RunRequests(gw, lang), lang)
  {
  }

  /**
   * A run that succeeds translates the transcript, then the summary, and
   * synthesizes the two translations, in that order, both with the voice
   * the table gives `lang`.
   */
  lemma SuccessfulRunRequests(gw: Gateway, duration: nat, lang: string, st: RunState)
    requires Run(gw, duration, lang, st).failed == None
    ensures TranscribeOutcome(gw.startJob, gw.polls, gw.download).Success?
    ensures gw.transcriptTranslation.Returned? && gw.keyPhrases.Returned? && gw.summaryTranslation.Returned?
    ensures RunRequests(gw, lang)
      == [Translation(TranscribeOutcome(gw.startJob, gw.polls, gw.download).value, lang),
          Translation(Summarize(gw.keyPhrases.value), lang),
          Synthesis(gw.transcriptTranslation.value, VoiceFor(lang), TranscriptAudio(lang)),
          Synthesis(gw.summaryTranslation.value, VoiceFor(lang), SummaryAudio(lang))]
  {
  }

  /** How many requests a run has made once it has invoked up to stage `s` (the code order of Translate and Polly calls). */
  function RequestsUpTo(s: Step): nat
  {
    match s
    case Recording => 0
    case Upload => 0
    case Transcription => 0
    case Analysis => 0
    case TranscriptTranslation => 1
    case Summarization => 1
    case SummaryTranslation => 2
    case TranscriptSpeech => 3
    case SummarySpeech => 4
  }

  lemma AfterSummaryRequestCount(gw: Gateway, lang: string, st: RunState, translated: string, summary: string)
    ensures var end := AfterSummary(gw, lang, st);
      1 + |SummaryRequests(gw, lang, translated, summary)| == RequestsUpTo(end.failed.GetOr(SummarySpeech))
  {
  }

  lemma AfterTranscriptionRequestCount(gw: Gateway, lang: string, st: RunState, transcript: string)
    ensures var end := AfterTranscription(gw, lang, st);
      |TranscriptionRequests(gw, lang, transcript)| == RequestsUpTo(end.failed.GetOr(SummarySpeech))
  {
    if gw.analysis.Returned? && gw.transcriptTranslation.Returned? && gw.keyPhrases.Returned? {
      var analyzed := Invoke(st, Analysis, AnalyzeLog(gw.analysis));
      var translated := Invoke(analyzed.(results := analyzed.results + AnalysisEntries(gw.analysis.value)),
                               TranscriptTranslation, TranslateLog(lang, gw.transcriptTranslation));
      var summarized := Invoke(translated, Summarization, SummarizeLog(gw.keyPhrases));
      AfterSummaryRequestCount(gw, lang, Store(summarized, "summary", Summarize(gw.keyPhrases.value)),
                               gw.transcriptTranslation.value, Summarize(gw.keyPhrases.value));
    }
  }

  /**
   * A run makes no request past the stage that fails: none before the
   * transcript translation, and otherwise the Translate and Polly calls up
   * to and including the failing stage; a run that completes makes all four.
   */
  lemma RequestsUpToFailure(gw: Gateway, duration: nat, lang: string, st: RunState)
    ensures |RunRequests(gw, lang)| == RequestsUpTo(Run(gw, duration, lang, st).failed.GetOr(SummarySpeech))
  {
    var outcome := TranscribeOutcome(gw.startJob, gw.polls, gw.download);
    if gw.capture.Returned? && gw.upload.Returned? && outcome.Success? {
      var recorded := Invoke(st, Recording, RecordLog(duration, AudioFile, gw.capture));
      var uploaded := Invoke(Store(recorded, "audio_file", AudioFile), Upload, UploadLog(gw.upload));
      var transcribed := Invoke(Store(uploaded, "s3_key", S3Key(AudioFile)), Transcription,
                                TranscribeLog(gw.clock, gw.startJob, gw.polls, gw.download));
      AfterTranscriptionRequestCount(gw, lang, Store(transcribed, "transcript", outcome.value), outcome.value);
    }
  }

  /** Each stage has its own failure message, so the reply names the stage that failed. */
  lemma FailureMessagesDistinct(s: Step, t: Step)
    requires FailureMessage(s) == FailureMessage(t)
    ensures s == t
  {
  }

  lemma FullResultsKeys(gw: Gateway, lang: string)
    requires TranscribeOutcome(gw.startJob, gw.polls, gw.download).Success?
    requires gw.analysis.Returned? && gw.keyPhrases.Returned? && gw.summaryTranslation.Returned?
    ensures FullResults(gw, lang).Keys
      == {"audio_file", "s3_key", "transcript", "sentiment", "entities", "key_phrases",
          "summary", "translated_summary", "tts_translated", "tts_summary"}
    ensures "translated_text" !in FullResults(gw, lang)
  {
  }

  /**
   * A job that reports FAILED: the run stops at transcription with
   * "Transcription failed", after recording and upload, and writes no
   * transcript.
   */
  lemma TranscriptionFailedRun(gw: Gateway, duration: nat, lang: string, logs0: seq<string>, results0: map<string, Value>)
    requires gw.capture.Returned? && gw.upload.Returned? && gw.startJob.Returned?
    requires gw.polls[PollStop(gw.polls)] == Returned("FAILED")
    requires "transcript" !in results0
    ensures var end := Run(gw, duration, lang, RunState([], logs0, results0));
      && end.state.invoked == [Recording, Upload, Transcription]
      && Reply(end) == Failure("Transcription failed")
      && "transcript" !in end.state.results
  {
  }
}
