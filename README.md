# Audio processing pipeline: a Dafny model

This project models the bookkeeping of the `AudioProcessingPipeline` back end in `backend.py`. A run records a clip and uploads it to S3. It transcribes the clip with AWS Transcribe, polling until the job stops. It analyses the transcript with Comprehend and translates it. It builds a bullet-point summary from the key phrases, translates the summary, and synthesizes both translations with Polly. Each stage appends lines to the pipeline's log and returns `(True, value)` on success or `(False, message)` on failure. On success, recording, upload, transcription, sentiment analysis and summarizing write their own entries into the `results` dictionary. `translate_text` and `text_to_speech` write nothing; `run_full_pipeline` itself stores `translated_summary`, `tts_translated` and `tts_summary` after the calls that produce them (backend.py:232, 242, 247). `run_full_pipeline` runs the stages in order and stops at the first one that fails, returning that stage's fixed message. Around the pipeline, a small Flask app keeps one module-level `pipeline`. Its handlers start a run, read the logs and results, summarize a posted text, and re-translate the stored transcript into another language.

Every external call is an input to the model, never something it performs. This covers the microphone, S3, Transcribe, the transcript download, Comprehend, Translate, Polly, the clock and the creation of the AWS clients. Each call is a `Call<T>`: either `Returned(value)` or `Raised(error)`, where `error` is the text of the exception. A whole run takes a `Gateway` holding one outcome per call. A run over any gateway is therefore an all-inputs statement about the code's own branches. What the code sends to Translate and Polly (the text, the target language, the voice and the output file) is recorded in the pipeline's ghost `requests` trace, so the contracts also say which texts are translated and spoken, and with which voice.

Modules:

- `Outcomes`: `Option`, `Call`, the `(success, payload)` pair `StageResult`, and a stored `Value` (a string, or a list of strings).
- `Voices`: the language-to-voice table.
- `Summary`: `summarize_text`'s bullet join and its split round trip.
- `Stages`: what each stage logs, returns and writes, as pure functions of its call outcomes. This includes the poll loop's stopping point.
- `Sequencer`: the nine stages of a run.
  - `Run` follows the code stage by stage.
  - `RunSteps` is the same fail-fast sequencing written once over a list of stages.
- `Pipeline`: class `AudioProcessingPipeline`. Its `logs` and `results` fields are updated in place by the stage methods and the run.
- `RunProperties`: `Run` equals `RunSteps` over `Steps`, and what a run invokes, returns, logs and writes.
- `Server`: class `App` holding the module-level `pipeline`, with one method per handler.

`run_full_pipeline` (backend.py:210-253) is one method in the source. Here its body is split at two stage boundaries into `RunFullPipeline`, `AnalyzeTranslateSummarize` and `TranslateAndSpeak`. Each part continues exactly where the previous one stopped. The split keeps each proof small and does not change behaviour. The ghost out-parameter `invoked` records which stages were called, the way a stub counting calls would.

`dynamic_translate` reads `results['summary']` without checking that it exists. A run that fails after transcription but before the summary leaves a transcript and no summary. A translate request in that state raises `KeyError`, which Flask turns into its bare 500 page (`InternalServerError` in the model). It does not get the 400 reply given when there is no transcript.

## Model

| member | source | states |
|---|---|---|
| Outcomes.NatToString | backend.py:102 | `str(n)` as used for the job-name suffix `str(int(time.time()))` and the logged duration: a nonempty string of decimal digits whose value is `n`, with no leading zero except for "0" itself |
| Voices.VoiceFor | backend.py:235-237 | the voice lookup is total: it always yields one of the seven table voices; any code outside the table gets "Joanna"; a voice other than "Joanna" comes only from a table entry other than "en" |
| Voices.VoiceTable | backend.py:338-340 | entry by entry, es→Lupe, fr→Celine, de→Marlene, hi→Aditi, ja→Mizuki, zh→Zhiyu, en→Joanna; every other code → Joanna |
| Summary.Summarize | backend.py:200-202 | the summary is "" exactly when there are no key phrases; otherwise it starts with the bullet "• " |
| Summary.SummaryLines | backend.py:201-202 | for m newline-free phrases (m > 0), splitting the summary on newlines gives exactly min(m, 5) lines; line i is "• " followed by phrase i (nothing reordered, no trailing newline) |
| Summary.SplitJoin | backend.py:202 | splitting `"\n".join(lines)` on newlines gives back the lines, when none of them contains a newline |
| Summary.EmptySummary | backend.py:201-202 | no key phrases give the empty summary |
| Stages.PollStop | backend.py:115-120 | the loop stops at the first answer that is COMPLETED, FAILED or a raised error: that answer stops, and none before it does |
| Sequencer.FirstFailure | backend.py:212-246 | the index of the first stage that fails: every earlier stage succeeds, and the stage at the index fails when there is one |
| Pipeline.AudioProcessingPipeline.constructor | backend.py:63-64 | a new pipeline has an empty log and no results, and has made no request |
| Pipeline.AudioProcessingPipeline.LogMessage | backend.py:66-68 | appends exactly the message at the end of the log; results unchanged |
| Pipeline.AudioProcessingPipeline.GetLogs | backend.py:70-71 | returns the current log |
| Pipeline.AudioProcessingPipeline.ClearLogs | backend.py:73-74 | empties the log and leaves the results alone |
| Pipeline.AudioProcessingPipeline.RecordAudio | backend.py:76-87 | appends the recording lines; succeeds exactly when the capture returned, then writes `audio_file` and returns the file name; on failure returns the error and writes nothing |
| Pipeline.AudioProcessingPipeline.UploadToS3 | backend.py:89-99 | appends the upload lines; succeeds exactly when the upload returned, then writes and returns `s3_key` = "audio/" + file; on failure returns the error and writes nothing |
| Pipeline.AudioProcessingPipeline.PollJob | backend.py:115-121 | the loop returns the first stopping answer, and every earlier answer was a returned state; it logs "Status: s" for each earlier state, in order |
| Pipeline.AudioProcessingPipeline.TranscribeAudio | backend.py:101-143 | the log grows by the transcription lines and the result is the transcription outcome of the start, poll and download outcomes; `transcript` is written exactly on success |
| Pipeline.AudioProcessingPipeline.FinishJob | backend.py:123-143 | after the loop: a raised answer gives its error, FAILED gives "Transcription failed" with no transcript written, COMPLETED goes on to the download |
| Pipeline.AudioProcessingPipeline.FetchTranscript | backend.py:128-139 | a 200 response with a non-blank body yields the extracted transcript and writes it; anything else fails with the matching message and writes nothing |
| Pipeline.AudioProcessingPipeline.AnalyzeSentiment | backend.py:145-170 | on success writes `sentiment` (string), `entities` and `key_phrases` (lists) together; on failure writes nothing; the result is the analysis outcome |
| Pipeline.AudioProcessingPipeline.TranslateText | backend.py:172-183 | requests the translation of exactly `text` into the target language, whether or not it succeeds; returns the translation or its error; logs the target language; never writes a result |
| Pipeline.AudioProcessingPipeline.TextToSpeech | backend.py:185-195 | requests the synthesis of exactly `text` with the given voice into the output file; succeeds exactly when synthesis returned, returning the output file name; never writes a result |
| Pipeline.AudioProcessingPipeline.SummarizeText | backend.py:197-208 | on success returns the bulleted summary of the key phrases and writes `summary`; on failure returns the error and writes nothing |
| Pipeline.AudioProcessingPipeline.RunFullPipeline | backend.py:210-253 | the final log, results and invoked stages are those of `Run` from the old log and results, the return value is `Reply` of that run, and the Translate and Polly requests made are `RunRequests` |
| Pipeline.AudioProcessingPipeline.AnalyzeTranslateSummarize | backend.py:218-227 | the analysis, transcript translation and summary part of the run ends as `AfterTranscription` does; it translates the transcript and goes on with its translation and the bulleted summary (`TranscriptionRequests`) |
| Pipeline.AudioProcessingPipeline.TranslateAndSpeak | backend.py:229-250 | the summary translation and the two speech syntheses end as `AfterSummary` does, writing `translated_summary`, `tts_translated` and `tts_summary` only after the call each follows has succeeded; it translates the summary, then synthesizes the translated transcript and the translated summary, both with the table's voice for the language (`SummaryRequests`) |
| RunProperties.AfterSummaryIsRunSteps | backend.py:229-250 | the last three stages in code order are the fail-fast sequencer over the last three steps |
| RunProperties.AfterTranscriptionIsRunSteps | backend.py:218-250 | the last six stages in code order are the fail-fast sequencer over the last six steps |
| RunProperties.RunIsRunSteps | backend.py:210-250 | the whole run in code order is the fail-fast sequencer over all nine steps |
| RunProperties.ApplyKeys | backend.py:212-247 | a succeeding stage adds exactly its own keys to the results |
| RunProperties.ApplyKeeps | backend.py:212-247 | a succeeding stage leaves every entry outside its own keys unchanged |
| RunProperties.ApplyTyped | backend.py:157-161 | a succeeding stage stores lists under `entities` and `key_phrases` only, strings elsewhere |
| RunProperties.RunStepsFailed | backend.py:212-247 | a run reports the first failing stage, or none when all succeed |
| RunProperties.RunStepsInvoked | backend.py:212-247 | the stages invoked are exactly those up to and including the first failure, in order; no later stage is called |
| RunProperties.RunStepsLogs | backend.py:212-249 | the log grows by the lines of the invoked stages, in order, then the completion line only when no stage failed |
| RunProperties.RunStepsKeys | backend.py:212-247 | the keys after a run are the old keys plus those of the stages before the first failure |
| RunProperties.RunStepsKeeps | backend.py:212-247 | an entry not written by a succeeding stage keeps its value |
| RunProperties.RunStepsTyped | backend.py:212-247 | a run keeps lists under `entities`/`key_phrases` and strings elsewhere |
| RunProperties.FailFast | backend.py:210-253 | from any log and results, a run invokes exactly the stages up to the first failure and returns that stage's fixed message, or the results; it appends the lines of the invoked stages (append-only), writes the keys of the stages before the failure, and leaves everything else as it was |
| RunProperties.RunTyped | backend.py:210-250 | a run keeps every result a string except `entities` and `key_phrases` |
| RunProperties.SuccessfulRun | backend.py:210-250 | a run that succeeds has overlaid exactly the ten entries `audio_file`, `s3_key`, `transcript`, `sentiment`, `entities`, `key_phrases`, `summary`, `translated_summary`, `tts_translated`, `tts_summary` with their values on the old results |
| RunProperties.FreshSuccessfulRun | backend.py:210-250 | from empty results, a successful run leaves exactly those ten keys and no `translated_text`; `tts_translated` = "transcript_"+lang+".mp3", `tts_summary` = "summary_"+lang+".mp3", and `summary` is the bulleted key phrases |
| RunProperties.FullResultsKeys | backend.py:210-250 | the ten entries of a successful run have exactly the ten keys, none of them `translated_text` |
| RunProperties.RunRequestsAddressed | backend.py:220-250 | every translation a run requests targets the run's language, and every synthesis uses the table's voice for it |
| RunProperties.SuccessfulRunRequests | backend.py:220-250 | a run that succeeds makes exactly four requests, in order: the transcript's translation, the summary's translation, then the syntheses of the two translations into `transcript_<lang>.mp3` and `summary_<lang>.mp3`, both with the table's voice |
| RunProperties.AfterSummaryRequestCount | backend.py:229-250 | from the summary translation on, the requests made stop at the stage that fails |
| RunProperties.AfterTranscriptionRequestCount | backend.py:218-250 | from the sentiment analysis on, the requests made stop at the stage that fails |
| RunProperties.RequestsUpToFailure | backend.py:210-250 | a run makes no Translate or Polly request after the stage that fails: none when it fails before the transcript translation, one through the summary, two through the summary translation, three through the transcript's speech, four otherwise |
| RunProperties.FailureMessagesDistinct | backend.py:213-246 | each of the nine stages has its own failure message, so the reply names the stage that failed |
| RunProperties.TranscriptionFailedRun | backend.py:210-217 | a job that reports FAILED stops the run after recording, upload and transcription with "Transcription failed", and no transcript is written |
| Server.FirstError | backend.py:331-348 | the handler's error is absent exactly when all four calls returned |
| Server.RetranslationAddressed | backend.py:326-348 | `dynamic_translate` translates into the requested language and speaks with the table's voice for it |
| Server.RetranslationRepeatsRun | backend.py:326-348 | after a run that succeeds, the stored transcript and summary are what the run produced, and re-translating them into the same language with the same outcomes makes exactly the run's requests: same texts, same voice, same output files |
| Server.RetranslationTyped | backend.py:351-354 | the four entries `dynamic_translate` writes are strings, under exactly the keys `translated_text`, `translated_summary`, `tts_translated`, `tts_summary` |
| Server.App.constructor | backend.py:261 | there is no pipeline before the first request |
| Server.App.StartPipeline | backend.py:269-281 | when the clients can be created, a fresh pipeline replaces the old one and holds exactly what `Run` produces from an empty log and results (duration 10 and "es" by default), and the reply is {"status": "started"} whatever the run did; its requests are those of `RunRequests`; otherwise a 500 with the error and the old pipeline stays |
| Server.App.GetLogs | backend.py:284-288 | the pipeline's log, or [] without a pipeline |
| Server.App.GetResults | backend.py:291-295 | the pipeline's results, or {} without a pipeline |
| Server.App.SummarizeApi | backend.py:306-316 | summarizes the posted text ("" when absent) on the current pipeline, creating one if there is none; writes `summary` and replies 200 with it on success, 500 with the error otherwise; a failure to create the pipeline is an unhandled 500 |
| Server.App.DynamicTranslate | backend.py:319-361 | 400 without a pipeline or a transcript; unhandled 500 with a transcript but no summary; otherwise it translates the stored transcript, then the stored summary, and synthesizes the two translations with the table's voice for the language, stopping at the first call that fails, and the log grows by those calls' lines; the four entries are written exactly when all four calls succeed, replying with them; otherwise a 500 with the first error and the results unchanged |

## Left out

- Recording hardware, the WAV and MP3 files, boto3, `requests` and JSON parsing are not executed. Their outcomes are inputs (`Call`), so the text passed to Comprehend or Translate has no effect on what comes back.
- Only the Translate and Polly requests are traced. What is passed to S3, Transcribe and Comprehend (the file, the S3 key, the text analysed) is not recorded. The fixed arguments `SourceLanguageCode="en"` and `OutputFormat="mp3"` are implied by `Request`, not stored.
- The recording duration is a natural number. Python accepts any number, and `int(duration * fs)` samples are not modelled.
- `time.time()` is an input (`clock`), and `time.sleep(5)` between polls is not modelled.
- A transcription job that never reaches COMPLETED or FAILED makes the source loop forever. Poll traces here always contain a stopping answer (`PollTrace`).
- `print` in `log_message` is not modelled. The outer `except` of `run_full_pipeline` ("Pipeline error", backend.py:251-253) is reachable only when something outside the stages' own handlers raises, such as that `print`. Every other exception is caught by the stage that raised it, so the model has no path to it.
- `start_pipeline` runs the pipeline in a daemon thread and replies at once. The model runs it to completion before replying. Interleavings with later requests, and two runs racing on the global `pipeline`, are not modelled.
- Request bodies that are not JSON objects, or fields of the wrong type, are not modelled. A missing field is `None` and gets the source's default.
- Pipeline.AudioProcessingPipeline.GetLogs: Python returns the live `self.logs` list (backend.py:70-71). The model returns its value, so later aliasing through that list is not captured. The Flask handler serializes the list, so its reply is a copy in both.
- Flask routing, CORS, templates, the page routes, `download_audio` (`send_file` from the file system) and the hard-coded AWS credentials are not modelled.
- `frontend.py` is not part of this model.
