/**
 * `AudioProcessingPipeline`: an append-only log and a results dictionary,
 * updated in place by the stage methods and by the fail-fast sequencer
 * `RunFullPipeline`. Every external call is an input outcome (`Call`).
 */
module Pipeline {
  import opened Outcomes
  import opened Summary
  import opened Voices
  import opened Stages
  import opened Sequencer

  class AudioProcessingPipeline {
    var logs: seq<string>
    var results: map<string, Value>
    /** The requests made to Translate and Polly so far, with their arguments. */
    ghost var requests: seq<Request>

    /** A new pipeline has an empty log and no results, and has made no request. */
    constructor ()
      ensures logs == [] && results == map[] && requests == []
    {
      logs := [];
      results := map[];
      requests := [];
    }

    /** Appends one entry at the end of the log. */
    method LogMessage(message: string)
      modifies this
      ensures requests == old(requests)
      ensures logs == old(logs) + [message]
      ensures results == old(results)
    {
      logs := logs + [message];
    }

    method GetLogs() returns (entries: seq<string>)
      ensures entries == logs
    {
      entries := logs;
    }

    method ClearLogs()
      modifies this
      ensures requests == old(requests)
      ensures logs == [] && results == old(results)
    {
      logs := [];
    }

    method RecordAudio(duration: nat, audioFile: string, capture: Call<()>) returns (r: StageResult<string>)
      modifies this
      ensures requests == old(requests)
      ensures logs == old(logs) + RecordLog(duration, audioFile, capture)
      ensures r.Success? <==> capture.Returned?
      ensures r.Success? ==> r.value == audioFile && results == old(results)["audio_file" := Text(audioFile)]
      ensures r.Failure? ==> r.message == capture.error && results == old(results)
    {
      LogMessage("\U{1F399} Recording for " + NatToString(duration) + " seconds...");
      if capture.Raised? {
        LogMessage("Recording failed: " + capture.error);
        return Failure(capture.error);
      }
      LogMessage(" Audio recorded and saved as " + audioFile);
      results := results["audio_file" := Text(audioFile)];
      return Success(audioFile);
    }

    method UploadToS3(audioFile: string, upload: Call<()>) returns (r: StageResult<string>)
      modifies this
      ensures requests == old(requests)
      ensures logs == old(logs) + UploadLog(upload)
      ensures r.Success? <==> upload.Returned?
      ensures r.Success? ==> r.value == S3Key(audioFile) && results == old(results)["s3_key" := Text(S3Key(audioFile))]
      ensures r.Failure? ==> r.message == upload.error && results == old(results)
    {
      LogMessage("\U{2B06} Uploading audio to S3...");
      var s3Key := "audio/" + audioFile;
      if upload.Raised? {
        LogMessage(" S3 Upload Failed: " + upload.error);
        return Failure(upload.error);
      }
      LogMessage("Uploaded to S3 successfully!");
      results := results["s3_key" := Text(s3Key)];
      return Success(s3Key);
    }

    /**
     * The status loop of `transcribe_audio`: `polls` holds the answers of
     * successive status requests. It stops at the first terminal state or
     * raised error, which it returns, and logs "Status: s" for every state
     * before it.
     */
    method PollJob(polls: PollTrace) returns (answer: Call<string>)
      modifies this
      ensures requests == old(requests)
      ensures answer == polls[PollStop(polls)]
      ensures Stops(answer)
      ensures forall j :: 0 <= j < PollStop(polls) ==> polls[j].Returned?
      ensures logs == old(logs) + StatusLines(polls[..PollStop(polls)])
      ensures results == old(results)
    {
      var i := 0;
      while true
        invariant 0 <= i <= PollStop(polls)
        invariant forall j :: 0 <= j < i ==> polls[j].Returned?
        invariant logs == old(logs) + StatusLines(polls[..i])
        invariant results == old(results) && requests == old(requests)
        decreases PollStop(polls) - i
      {
        var status := polls[i];
        if status.Raised? {
          return status;
        }
        var state := status.value;
        if state == "COMPLETED" || state == "FAILED" {
          return status;
        }
        LogMessage("Status: " + state);
        assert StatusLines(polls[..i + 1]) == StatusLines(polls[..i]) + ["Status: " + state];
        i := i + 1;
      }
    }

    /** Submits the job, waits for it to stop, then fetches the transcript of a completed job. */
    method TranscribeAudio(s3Key: string, clock: nat, start: Call<()>, polls: PollTrace, download: Call<Download>)
      returns (r: StageResult<string>)
      modifies this
      ensures requests == old(requests)
      ensures logs == old(logs) + TranscribeLog(clock, start, polls, download)
      ensures r == TranscribeOutcome(start, polls, download)
      ensures results == if r.Success? then old(results)["transcript" := Text(r.value)] else old(results)
    {
      var jobName := JobName(clock);
      LogMessage("Starting Transcription Job: " + jobName);
      if start.Raised? {
        LogMessage(" Transcription error: " + start.error);
        return Failure(start.error);
      }
      LogMessage("Waiting for transcription to finish...");
      var status := PollJob(polls);
      r := FinishJob(status, download);
      ghost var k := PollStop(polls);
      AppendAssoc(old(logs), ["Starting Transcription Job: " + jobName], ["Waiting for transcription to finish..."],
                  StatusLines(polls[..k]), VerdictLog(polls[k], download));
    }

    /** What `transcribe_audio` does once the poll loop has stopped at `status`. */
    method FinishJob(status: Call<string>, download: Call<Download>) returns (r: StageResult<string>)
      modifies this
      ensures requests == old(requests)
      ensures logs == old(logs) + VerdictLog(status, download)
      ensures r == Verdict(status, download)
      ensures results == if r.Success? then old(results)["transcript" := Text(r.value)] else old(results)
    {
      if status.Raised? {
        LogMessage(" Transcription error: " + status.error);
        return Failure(status.error);
      }
      if status.value == "FAILED" {
        LogMessage(" Transcription failed.");
        return Failure("Transcription failed");
      }
      LogMessage(" Transcription completed!");
      r := FetchTranscript(download);
    }

    /** The end of `transcribe_audio` once the job has completed: download and extract the transcript. */
    method FetchTranscript(download: Call<Download>) returns (r: StageResult<string>)
      modifies this
      ensures requests == old(requests)
      ensures logs == old(logs) + DownloadLog(download)
      ensures r == DownloadOutcome(download)
      ensures results == if r.Success? then old(results)["transcript" := Text(r.value)] else old(results)
    {
      match download {
        case Raised(e) =>
          LogMessage(" Transcription error: " + e);
          return Failure(e);
        case Returned(response) =>
          if response.statusCode == 200 && !Blank(response.body) {
            match response.transcript {
              case Raised(e) =>
                LogMessage(" Transcription error: " + e);
                return Failure(e);
              case Returned(transcriptText) =>
                LogMessage(" Transcribed Text: " + transcriptText);
                results := results["transcript" := Text(transcriptText)];
                return Success(transcriptText);
            }
          } else {
            LogMessage(" Failed to download valid transcript.");
            return Failure("Failed to download transcript");
          }
      }
    }

    method AnalyzeSentiment(text: string, analysis: Call<TextAnalysis>) returns (r: StageResult<TextAnalysis>)
      modifies this
      ensures requests == old(requests)
      ensures logs == old(logs) + AnalyzeLog(analysis)
      ensures r == analysis.ToStage()
      ensures analysis.Returned? ==> results == old(results) + AnalysisEntries(analysis.value)
      ensures analysis.Raised? ==> results == old(results)
    {
      LogMessage(" Analyzing text sentiment with Comprehend...");
      if analysis.Raised? {
        LogMessage(" Analysis error: " + analysis.error);
        return Failure(analysis.error);
      }
      var a := analysis.value;
      LogMessage(" Sentiment: " + a.sentiment);
      results := results + map["sentiment" := Text(a.sentiment), "entities" := Texts(a.entities),
                               "key_phrases" := Texts(a.keyPhrases)];
      return Success(a);
    }

    /** Translates from English; the translation itself is not stored. */
    method TranslateText(text: string, targetLang: string, translation: Call<string>) returns (r: StageResult<string>)
      modifies this
      ensures requests == old(requests) + [Translation(text, targetLang)]
      ensures logs == old(logs) + TranslateLog(targetLang, translation)
      ensures r == translation.ToStage()
      ensures results == old(results)
    {
      LogMessage("Translating text to " + targetLang + "...");
      requests := requests + [Translation(text, targetLang)];
      if translation.Raised? {
        LogMessage(" Translation error: " + translation.error);
        return Failure(translation.error);
      }
      LogMessage("Translated Text: " + translation.value);
      return Success(translation.value);
    }

    /** Synthesizes `text` with `voiceId` into `outputFile`; nothing is stored. */
    method TextToSpeech(text: string, voiceId: string, outputFile: string, speech: Call<()>) returns (r: StageResult<string>)
      modifies this
      ensures requests == old(requests) + [Synthesis(text, voiceId, outputFile)]
      ensures logs == old(logs) + SpeechLog(outputFile, speech)
      ensures r.Success? <==> speech.Returned?
      ensures r.Success? ==> r.value == outputFile
      ensures r.Failure? ==> r.message == speech.error
      ensures results == old(results)
    {
      LogMessage(" Converting text to speech: " + outputFile);
      requests := requests + [Synthesis(text, voiceId, outputFile)];
      if speech.Raised? {
        LogMessage("Text-to-speech error: " + speech.error);
        return Failure(speech.error);
      }
      LogMessage("Audio saved as " + outputFile);
      return Success(outputFile);
    }

    /** `keyPhrases` is what key-phrase detection returned for `text`. */
    method SummarizeText(text: string, keyPhrases: Call<seq<string>>) returns (r: StageResult<string>)
      modifies this
      ensures requests == old(requests)
      ensures logs == old(logs) + SummarizeLog(keyPhrases)
      ensures r.Success? <==> keyPhrases.Returned?
      ensures r.Success? ==> r.value == Summarize(keyPhrases.value) && results == old(results)["summary" := Text(r.value)]
      ensures r.Failure? ==> r.message == keyPhrases.error && results == old(results)
    {
      LogMessage("Summarizing text...");
      if keyPhrases.Raised? {
        LogMessage("Summarization error: " + keyPhrases.error);
        return Failure(keyPhrases.error);
      }
      var summary := Summarize(keyPhrases.value);
      results := results["summary" := Text(summary)];
      LogMessage("Summary generated:\n" + summary);
      return Success(summary);
    }

    /**
     * The fail-fast sequencer: the stages run in order, and the first one
     * that fails ends the run with that stage's fixed message. `invoked`
     * records the stages called, as a stub gateway counting calls would.
     * The run goes on in `AnalyzeTranslateSummarize` once the transcript is in.
     */
    method RunFullPipeline(duration: nat, targetLang: string, gw: Gateway)
      returns (r: StageResult<map<string, Value>>, ghost invoked: seq<Step>)
      modifies this
      ensures requests == old(requests) + RunRequests(gw, targetLang)
      ensures Run(gw, duration, targetLang, RunState([], old(logs), old(results))).state == RunState(invoked, logs, results)
      ensures r == Reply(Run(gw, duration, targetLang, RunState([], old(logs), old(results))))
    {
      invoked := [];
      var recorded := RecordAudio(duration, AudioFile, gw.capture);
      invoked := invoked + [Recording];
      if recorded.Failure? {
        return Failure("Recording failed"), invoked;
      }
      var uploaded := UploadToS3(recorded.value, gw.upload);
      invoked := invoked + [Upload];
      if uploaded.Failure? {
        return Failure("S3 upload failed"), invoked;
      }
      var transcribed := TranscribeAudio(uploaded.value, gw.clock, gw.startJob, gw.polls, gw.download);
      invoked := invoked + [Transcription];
      if transcribed.Failure? {
        return Failure("Transcription failed"), invoked;
      }
      r, invoked := AnalyzeTranslateSummarize(transcribed.value, targetLang, gw, invoked);
    }

    /** `run_full_pipeline` from the sentiment analysis to the summary, then `TranslateAndSpeak`. */
    method AnalyzeTranslateSummarize(transcript: string, targetLang: string, gw: Gateway, ghost done: seq<Step>)
      returns (r: StageResult<map<string, Value>>, ghost invoked: seq<Step>)
      modifies this
      ensures requests == old(requests) + TranscriptionRequests(gw, targetLang, transcript)
      ensures AfterTranscription(gw, targetLang, RunState(done, old(logs), old(results))).state == RunState(invoked, logs, results)
      ensures r == Reply(AfterTranscription(gw, targetLang, RunState(done, old(logs), old(results))))
    {
      var analyzed := AnalyzeSentiment(transcript, gw.analysis);
      invoked := done + [Analysis];
      if analyzed.Failure? {
        return Failure("Sentiment analysis failed"), invoked;
      }
      var translated := TranslateText(transcript, targetLang, gw.transcriptTranslation);
      invoked := invoked + [TranscriptTranslation];
      if translated.Failure? {
        return Failure("Translation failed"), invoked;
      }
      var summarized := SummarizeText(transcript, gw.keyPhrases);
      invoked := invoked + [Summarization];
      if summarized.Failure? {
        return Failure("Summary failed"), invoked;
      }
      r, invoked := TranslateAndSpeak(translated.value, summarized.value, targetLang, gw, invoked);
    }

    /** `run_full_pipeline` from the summary translation to the end. */
    method TranslateAndSpeak(translated: string, summary: string, targetLang: string, gw: Gateway, ghost done: seq<Step>)
      returns (r: StageResult<map<string, Value>>, ghost invoked: seq<Step>)
      modifies this
      ensures requests == old(requests) + SummaryRequests(gw, targetLang, translated, summary)
      ensures AfterSummary(gw, targetLang, RunState(done, old(logs), old(results))).state == RunState(invoked, logs, results)
      ensures r == Reply(AfterSummary(gw, targetLang, RunState(done, old(logs), old(results))))
    {
      var translatedSummary := TranslateText(summary, targetLang, gw.summaryTranslation);
      invoked := done + [SummaryTranslation];
      if translatedSummary.Failure? {
        return Failure("Summary translation failed"), invoked;
      }
      results := results["translated_summary" := Text(translatedSummary.value)];

      var voiceId := VoiceFor(targetLang);

      var spokenTranscript := TextToSpeech(translated, voiceId, TranscriptAudio(targetLang), gw.transcriptSpeech);
      invoked := invoked + [TranscriptSpeech];
      if spokenTranscript.Failure? {
        return Failure("Transcript TTS failed"), invoked;
      }
      results := results["tts_translated" := Text(spokenTranscript.value)];

      var spokenSummary := TextToSpeech(translatedSummary.value, voiceId, SummaryAudio(targetLang), gw.summarySpeech);
      invoked := invoked + [SummarySpeech];
      if spokenSummary.Failure? {
        return Failure("Summary TTS failed"), invoked;
      }
      results := results["tts_summary" := Text(spokenSummary.value)];

      LogMessage(CompletedLine);
      return Success(results), invoked;
    }
  }

  /** Regrouping a log or trace that grew in four steps. */
  lemma AppendAssoc<T>(o: seq<T>, a: seq<T>, b: seq<T>, c: seq<T>, d: seq<T>)
    ensures o + a + b + c + d == o + (a + (b + c + d))
    ensures o + a + b + c + d == o + (a + (b + (c + d)))
  {
  }
}
