/**
 * The Flask handlers around the one module-level `pipeline`: starting a
 * run, reading its logs and results, summarizing a posted text and
 * re-translating the last transcript. A request's JSON fields are
 * `Option`s, and every external call is an input outcome.
 */
module Server {
  import opened Outcomes
  import opened Summary
  import opened Voices
  import opened Stages
  import opened Sequencer
  import opened RunProperties
  import opened Pipeline

  /** A JSON value a handler replies with. */
  datatype Json = Str(text: string) | Strs(items: seq<string>) | Object(entries: map<string, Value>)

  /**
   * A reply: a status code and a JSON object, or the bare 500 page Flask
   * sends when a handler raises.
   */
  datatype Response = Response(status: nat, body: map<string, Json>) | InternalServerError

  const NoTranscript: string := "No transcript available. Run pipeline first."

  /** The outcomes of the four external calls `dynamic_translate` makes, in order. */
  datatype TranslateCalls = TranslateCalls(
    transcriptTranslation: Call<string>,
    summaryTranslation: Call<string>,
    transcriptSpeech: Call<()>,
    summarySpeech: Call<()>)

  predicate AllReturned(calls: TranslateCalls)
  {
    calls.transcriptTranslation.Returned? && calls.summaryTranslation.Returned?
    && calls.transcriptSpeech.Returned? && calls.summarySpeech.Returned?
  }

  /** The error of the first of the four calls that raised, if any. */
  function FirstError(calls: TranslateCalls): (e: Option<string>)
    ensures e.None? <==> AllReturned(calls)
  {
    if calls.transcriptTranslation.Raised? then Some(calls.transcriptTranslation.error)
    else if calls.summaryTranslation.Raised? then Some(calls.summaryTranslation.error)
    else if calls.transcriptSpeech.Raised? then Some(calls.transcriptSpeech.error)
    else if calls.summarySpeech.Raised? then Some(calls.summarySpeech.error)
    else None
  }

  /** What `dynamic_translate` logs through the pipeline: the calls it makes, up to the first that raises. */
  function TranslateCallsLog(lang: string, calls: TranslateCalls): seq<string>
  {
    TranslateLog(lang, calls.transcriptTranslation) +
    if calls.transcriptTranslation.Raised? then [] else
    TranslateLog(lang, calls.summaryTranslation) +
    if calls.summaryTranslation.Raised? then [] else
    SpeechLog(TranscriptAudio(lang), calls.transcriptSpeech) +
    if calls.transcriptSpeech.Raised? then [] else
    SpeechLog(SummaryAudio(lang), calls.summarySpeech)
  }

  /** The entries a successful `dynamic_translate` stores. */
  function Retranslation(lang: string, calls: TranslateCalls): map<string, Value>
    requires AllReturned(calls)
  {
    map["translated_text" := Text(calls.transcriptTranslation.value),
        "translated_summary" := Text(calls.summaryTranslation.value),
        "tts_translated" := Text(TranscriptAudio(lang)),
        "tts_summary" := Text(SummaryAudio(lang))]
  }

  /**
   * The Translate and Polly requests `dynamic_translate` makes for the
   * stored `transcript` and `summary`, up to the first call that raises.
   */
  function RetranslationRequests(lang: string, transcript: string, summary: string, calls: TranslateCalls): seq<Request>
  {
    [Translation(transcript, lang)] +
    if calls.transcriptTranslation.Raised? then [] else
    [Translation(summary, lang)] +
    if calls.summaryTranslation.Raised? then [] else
    [Synthesis(calls.transcriptTranslation.value, VoiceFor(lang), TranscriptAudio(lang))] +
    if calls.transcriptSpeech.Raised? then [] else
    [Synthesis(calls.summaryTranslation.value, VoiceFor(lang), SummaryAudio(lang))]
  }

  /** Re-translation targets `lang` and speaks with the same table's voice as a run does. */
  lemma RetranslationAddressed(lang: string, transcript: string, summary: string, calls: TranslateCalls)
    ensures AddressedTo(RetranslationRequests(lang, transcript, summary, calls), lang)
  {
  }

  /**
   * After a run that succeeds, re-translating into the same language with
   * the same call outcomes makes exactly the requests the run made: the
   * same texts, the same voice and the same output files.
   */
  lemma RetranslationRepeatsRun(gw: Gateway, duration: nat, lang: string)
    requires Run(gw, duration, lang, RunState([], [], map[])).failed == None
    ensures TranscribeOutcome(gw.startJob, gw.polls, gw.download).Success? && gw.keyPhrases.Returned?
    ensures var results := Run(gw, duration, lang, RunState([], [], map[])).state.results;
      && "transcript" in results && "summary" in results
      && results["transcript"] == Text(TranscribeOutcome(gw.startJob, gw.polls, gw.download).value)
      && results["summary"] == Text(Summarize(gw.keyPhrases.value))
      && RetranslationRequests(lang, TranscribeOutcome(gw.startJob, gw.polls, gw.download).value, Summarize(gw.keyPhrases.value),
                               TranslateCalls(gw.transcriptTranslation, gw.summaryTranslation, gw.transcriptSpeech, gw.summarySpeech))
         == RunRequests(gw, lang)
  {
    SuccessfulRun(gw, duration, lang, RunState([], [], map[]));
    SuccessfulRunRequests(gw, duration, lang, RunState([], [], map[]));
  }

  /** A successful `dynamic_translate` keeps result values typed: its four entries are strings. */
  lemma RetranslationTyped(results: map<string, Value>, lang: string, calls: TranslateCalls)
    requires AllReturned(calls) && Typed(results)
    ensures Typed(results + Retranslation(lang, calls))
    ensures (results + Retranslation(lang, calls)).Keys == results.Keys + {"translated_text", "translated_summary", "tts_translated", "tts_summary"}
  {
  }

  class App {
    /** The module-level `pipeline`, `None` until the first start or summary request. */
    var pipeline: AudioProcessingPipeline?

    /** Entities and key phrases are lists; every other result is a string. */
    ghost predicate Valid()
      reads this, pipeline
    {
      pipeline != null ==> Typed(pipeline.results)
    }

    constructor ()
      ensures Valid() && pipeline == null
    {
      pipeline := null;
    }

    /**
     * `POST /api/start-pipeline`: a new pipeline replaces the old one and
     * runs with the requested duration and language (10 and "es" when
     * absent); the reply does not wait for, or depend on, the run. If the
     * AWS clients cannot be created the old pipeline stays and the reply is
     * a 500 carrying the error.
     */
    method StartPipeline(duration: Option<nat>, targetLang: Option<string>, clients: Call<()>, gw: Gateway)
      returns (response: Response)
      requires Valid()
      modifies this
      ensures Valid()
      ensures clients.Raised? ==>
        response == Response(500, map["status" := Str("error"), "message" := Str(clients.error)])
        && pipeline == old(pipeline)
      ensures clients.Returned? ==>
        response == Response(200, map["status" := Str("started")])
        && pipeline != null && fresh(pipeline)
        && var end := Run(gw, duration.GetOr(10), targetLang.GetOr("es"), RunState([], [], map[]));
           pipeline.logs == end.state.logs && pipeline.results == end.state.results
           && pipeline.requests == RunRequests(gw, targetLang.GetOr("es"))
    {
      if clients.Raised? {
        return Response(500, map["status" := Str("error"), "message" := Str(clients.error)]);
      }
      var started := new AudioProcessingPipeline();
      var d := duration.GetOr(10);
      var lang := targetLang.GetOr("es");
      var _, _ := started.RunFullPipeline(d, lang, gw);
      RunTyped(gw, d, lang, RunState([], [], map[]));
      pipeline := started;
      return Response(200, map["status" := Str("started")]);
    }

    /** `GET /api/logs`: the pipeline's log, or an empty list when there is none. */
    method GetLogs() returns (response: Response)
      ensures pipeline != null ==> response == Response(200, map["logs" := Strs(pipeline.logs)])
      ensures pipeline == null ==> response == Response(200, map["logs" := Strs([])])
    {
      if pipeline != null {
        var entries := pipeline.GetLogs();
        return Response(200, map["logs" := Strs(entries)]);
      }
      return Response(200, map["logs" := Strs([])]);
    }

    /** `GET /api/results`: the results dictionary, or an empty one when there is no pipeline. */
    method GetResults() returns (response: Response)
      ensures pipeline != null ==> response == Response(200, map["results" := Object(pipeline.results)])
      ensures pipeline == null ==> response == Response(200, map["results" := Object(map[])])
    {
      if pipeline != null {
        return Response(200, map["results" := Object(pipeline.results)]);
      }
      return Response(200, map["results" := Object(map[])]);
    }

    /**
     * `POST /api/summarize`: summarizes the posted text ("" when absent)
     * with the current pipeline, creating one first if there is none; a
     * failure to create it is an unhandled error.
     */
    method SummarizeApi(text: Option<string>, clients: Call<()>, keyPhrases: Call<seq<string>>)
      returns (response: Response)
      requires Valid()
      modifies this, pipeline
      ensures Valid()
      ensures old(pipeline) == null && clients.Raised? ==> response == InternalServerError && pipeline == null
      ensures old(pipeline) != null ==>
        pipeline == old(pipeline)
        && pipeline.logs == old(pipeline.logs) + SummarizeLog(keyPhrases)
        && pipeline.requests == old(pipeline.requests)
        && pipeline.results == if keyPhrases.Returned? then old(pipeline.results)["summary" := Text(Summarize(keyPhrases.value))]
                               else old(pipeline.results)
      ensures old(pipeline) == null && clients.Returned? ==>
        pipeline != null && fresh(pipeline)
        && pipeline.logs == SummarizeLog(keyPhrases) && pipeline.requests == []
        && pipeline.results == if keyPhrases.Returned? then map["summary" := Text(Summarize(keyPhrases.value))] else map[]
      ensures response != InternalServerError ==>
        response == if keyPhrases.Returned? then Response(200, map["summary" := Str(Summarize(keyPhrases.value))])
                    else Response(500, map["error" := Str(keyPhrases.error)])
    {
      if pipeline == null {
        if clients.Raised? {
          return InternalServerError;
        }
        pipeline := new AudioProcessingPipeline();
      }
      var summarized := pipeline.SummarizeText(text.GetOr(""), keyPhrases);
      if summarized.Success? {
        response := Response(200, map["summary" := Str(summarized.value)]);
      } else {
        response := Response(500, map["error" := Str(summarized.message)]);
      }
    }

    /**
     * `POST /api/translate`: translates the stored transcript and summary
     * into the requested language ("es" when absent) and synthesizes both.
     * Without a pipeline or a transcript the reply is 400; a missing
     * summary is an unhandled error. The four new entries are stored only
     * when all four calls succeed; otherwise the first error is a 500.
     */
    method DynamicTranslate(targetLang: Option<string>, calls: TranslateCalls) returns (response: Response)
      requires Valid()
      modifies pipeline
      ensures Valid()
      ensures old(pipeline) == null || "transcript" !in old(pipeline.results) ==>
        response == Response(400, map["error" := Str(NoTranscript)])
        && (pipeline != null ==>
              pipeline.logs == old(pipeline.logs) && pipeline.results == old(pipeline.results)
              && pipeline.requests == old(pipeline.requests))
      ensures pipeline != null && "transcript" in old(pipeline.results) && "summary" !in old(pipeline.results) ==>
        response == InternalServerError
        && pipeline.logs == old(pipeline.logs) && pipeline.results == old(pipeline.results)
        && pipeline.requests == old(pipeline.requests)
      ensures pipeline != null && "transcript" in old(pipeline.results) && "summary" in old(pipeline.results) ==>
        var lang := targetLang.GetOr("es");
        && pipeline.logs == old(pipeline.logs) + TranslateCallsLog(lang, calls)
        && pipeline.requests == old(pipeline.requests)
             + RetranslationRequests(lang, old(pipeline.results)["transcript"].text, old(pipeline.results)["summary"].text, calls)
        && (AllReturned(calls) ==>
              pipeline.results == old(pipeline.results) + Retranslation(lang, calls)
              && response == Response(200, map["translated_text" := Str(calls.transcriptTranslation.value),
                                               "summary" := Str(calls.summaryTranslation.value),
                                               "tts_translated" := Str(TranscriptAudio(lang)),
                                               "tts_summary" := Str(SummaryAudio(lang))]))
        && (!AllReturned(calls) ==>
              pipeline.results == old(pipeline.results)
              && response == Response(500, map["error" := Str(FirstError(calls).value)]))
    {
      if pipeline == null || "transcript" !in pipeline.results {
        return Response(400, map["error" := Str(NoTranscript)]);
      }
      var lang := targetLang.GetOr("es");
      var transcript := pipeline.results["transcript"].text;
      if "summary" !in pipeline.results {
        return InternalServerError;
      }
      var summary := pipeline.results["summary"].text;
      ghost var logs0, results0, requests0 := pipeline.logs, pipeline.results, pipeline.requests;

      var translated := pipeline.TranslateText(transcript, lang, calls.transcriptTranslation);
      if translated.Failure? {
        return Response(500, map["error" := Str(translated.message)]);
      }
      var translatedSummary := pipeline.TranslateText(summary, lang, calls.summaryTranslation);
      if translatedSummary.Failure? {
        return Response(500, map["error" := Str(translatedSummary.message)]);
      }
      var voiceId := VoiceFor(lang);
      var spoken := pipeline.TextToSpeech(translated.value, voiceId, TranscriptAudio(lang), calls.transcriptSpeech);
      if spoken.Failure? {
        return Response(500, map["error" := Str(spoken.message)]);
      }
      var spokenSummary := pipeline.TextToSpeech(translatedSummary.value, voiceId, SummaryAudio(lang), calls.summarySpeech);
      if spokenSummary.Failure? {
        return Response(500, map["error" := Str(spokenSummary.message)]);
      }
      AppendAssoc(logs0, TranslateLog(lang, calls.transcriptTranslation), TranslateLog(lang, calls.summaryTranslation),
                  SpeechLog(TranscriptAudio(lang), calls.transcriptSpeech), SpeechLog(SummaryAudio(lang), calls.summarySpeech));
      AppendAssoc(requests0, [Translation(transcript, lang)], [Translation(summary, lang)],
                  [Synthesis(translated.value, voiceId, TranscriptAudio(lang))],
                  [Synthesis(translatedSummary.value, voiceId, SummaryAudio(lang))]);
      pipeline.results := pipeline.results + map["translated_text" := Text(translated.value),
                                                  "translated_summary" := Text(translatedSummary.value),
                                                  "tts_translated" := Text(spoken.value),
                                                  "tts_summary" := Text(spokenSummary.value)];
      RetranslationTyped(results0, lang, calls);
      return Response(200, map["translated_text" := Str(translated.value), "summary" := Str(translatedSummary.value),
                               "tts_translated" := Str(spoken.value), "tts_summary" := Str(spokenSummary.value)]);
    }
  }
}
