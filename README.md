# Meeting answer assistant: a Dafny model of the audio-to-answer pipeline

The application listens to a meeting or an interview. It turns the audio into a rolling transcript,
and whenever the speaker falls silent it asks a language model for an answer. The answer is shown
in a floating overlay and in the control panel's history. This project models the logic behind that
pipeline and proves properties of it:

- the main process (`electron/main.js`):
  - the retry loop with exponential backoff;
  - the settings merge;
  - the one-at-a-time transcription handler;
  - the answer handler, with its prompt, its JSON extraction, the question synthesis and the broadcast rule;
- audio capture (`src/hooks/useAudioCapture.js`):
  - the frame buffer and the chunker;
  - the silence latch;
  - the float-to-PCM converter and the WAV encoder;
  - device selection;
- the two transcript accumulators (`src/hooks/useTranscription.js`, `src/hooks/useSpeechRecognition.js`):
  the 60-second window, the timestamp-ordered transcript, the hallucination filter and the word count;
- the answer-request hook (`src/hooks/useAIAnswer.js`);
- the user interface state:
  - the overlay's state machine and dismiss timer (`src/components/Overlay.jsx`);
  - the control panel's answer state, copy text, status and answer formatting (`src/App.jsx`);
  - the four-step setup wizard (`src/components/SetupWizard.jsx`).

One Dafny module stands for each source file. State that the source updates in place (the main
process's store and flag, React state and refs) is a class whose methods say what they change.
Pure computations are functions with lemmas. Four shared modules support them:

- `Wrappers`: Option, a fallible attempt, and the IPC reply shape;
- `Text`: JavaScript's trim, split, join and word count on strings;
- `Json`: JavaScript values, truthiness and `String()`;
- `Transcript`: the window, sort and hallucination rules both accumulators use.

Clocks are a `now` parameter and a pending timer is an optional deadline. A remote service is a
function of the request and the attempt number. Where interleavings matter, an `await` splits a handler into a part before it
and a part after it, so interleavings can be stated.

Where the code and its description disagree, the model follows the code:

- The one-in-flight guard exists only on `transcribe-audio`, not on `get-ai-answer`.
- The JSON span runs greedily from the first `{` to the last `}`.
- A negative sample in (-1/32768, 0) truncates to 0, so negative inputs map into [-32768, 0] rather than [-32768, 0).
- An answer that arrives while the overlay already shows one does not restart the dismiss timer, because the timer effect re-runs only when the state or the delay changes.
- After a silence-triggered request whose reply has no question, the control panel stays in its loading state. No answer is broadcast then, and a returned value does not end loading.

## Model

| member | source | states |
|---|---|---|
| `Retry.WithRetry` | electron/main.js:89-103 | at most `maxAttempts` calls; every earlier call failed; returns exactly when the last call succeeded, with its value; otherwise exactly `maxAttempts` calls and the last call's error; the waits are the backoff schedule for all but the last call |
| `Retry.Schedule` | electron/main.js:96-99 | the wait after failed attempt k+1 is 1000·2^k ms |
| `Retry.ScheduleTotal` | electron/main.js:96-99 | n waits add up to 1000·(2^n − 1) ms |
| `Retry.ThreeAttemptsWaitThreeSeconds` | electron/main.js:96-99 | three attempts wait 1000 ms then 2000 ms, 3000 ms in all |
| `AnswerParsing.FlattenKeepsText` | electron/main.js:335-343 | every string and every key inside a value occurs in its flattened text |
| `AnswerParsing.Flatten` | electron/main.js:335-343 | a string flattens to itself; null and undefined flatten to the empty string |
| `AnswerParsing.FlattenSectionsExample` | electron/main.js:339-341 | an object flattens to `key\nvalue` entries separated by a blank line |
| `AnswerParsing.BuildAIMessages` | electron/main.js:330-333 | the system prompt is passed through; the user message starts with the transcript heading, shows the context (the utterance when the context is empty) and ends with the last-utterance line |
| `AnswerParsing.JsonSpanIsLeftmostLongest` | electron/main.js:348 | a span exists exactly when some `{` precedes some `}`; it starts at the first `{` and ends at the last `}` |
| `AnswerParsing.JsonSpan` | electron/main.js:348 | a matched span is non-empty and lies inside the reply |
| `AnswerParsing.Extracted` | electron/main.js:346-350 | with no span, or a span that does not parse, the result is the default shape; a span that parses gives its five members, and only then is the result anything else |
| `AnswerParsing.LooksLikeQuestion` | electron/main.js:357 | an utterance counts as a question exactly when it contains `?` or its trimmed lower-case form opens with one of the twelve listed words ("what", "how", … "implement") |
| `AnswerParsing.AsText` | electron/main.js:351-356 | a repaired field is a string whenever it is truthy; strings and falsy values are kept; a truthy non-string is replaced by its flattened text |
| `AnswerParsing.FallbackAnswer` | electron/main.js:360 | the text after the JSON span, trimmed and cut to its first 4000 characters; when that is empty, the reply's first 4000 characters; empty only for an empty reply |
| `AnswerParsing.ParseAIResponse` | electron/main.js:345-363 | truthy `answer` and `codeSnippet` are strings; `language` is the extracted one |
| `AnswerParsing.UnreadableReplyGivesDefault` | electron/main.js:346-350 | with no readable object and no question-like utterance the result is the default shape |
| `AnswerParsing.QuestionSynthesis` | electron/main.js:357-361 | an unflagged reply to a question-like utterance is flagged; a missing question becomes the trimmed utterance cut to 200 characters; a missing answer becomes at most 4000 characters |
| `AnswerParsing.SynthesisKeepsGivenFields` | electron/main.js:357-361 | when the synthesis runs, a truthy question and a truthy repaired answer are kept; a falsy answer becomes the fallback answer; the code snippet is repaired and the language is kept |
| `AnswerParsing.ExtractedPassesThrough` | electron/main.js:345-363 | when the synthesis does not run, the flag, question and language are the extracted ones and the answer and code snippet are their repaired forms |
| `AnswerParsing.EmbeddedObjectRoundTrip` | electron/main.js:348-349 | an object surrounded by brace-free prose is extracted and returned exactly |
| `AnswerParsing.IntroTextExample` | electron/main.js:345-363 | the reply "Intro text {…} trailing" yields the object inside it |
| `AnswerParsing.Broadcast` | electron/main.js:365-369 | nothing is sent when `hasQuestion` is falsy; otherwise each live window receives the answer |
| `AnswerParsing.QuestionLikeUtteranceIsBroadcast` | electron/main.js:357-358 | a question-like utterance always yields a flagged, hence broadcast, answer |
| `MainProcess.MergeKeepsUnnamedKeys` | electron/main.js:266-272 | a key no entry names keeps its presence and value |
| `MainProcess.MergeLastEntryWins` | electron/main.js:266-272 | the last entry naming a key decides it: deleted when null or undefined, set otherwise |
| `MainProcess.ApplyEntry` | electron/main.js:267-271 | a null or undefined value deletes its key, any other value sets it; every other key is unchanged |
| `MainProcess.Merge` | electron/main.js:266-272 | the merged store holds only keys it held before or keys some entry names |
| `MainProcess.SettingsEntries` | electron/main.js:266 | an object gives its members in order; an array one entry per item, keyed by the item's index written in decimal and holding that item; anything else no entries |
| `MainProcess.MainProcess.SaveSettings` | electron/main.js:263-278 | a null payload fails with the TypeError message and leaves the store alone; any other payload succeeds and applies its entries in order |
| `MainProcess.MainProcess.BeginTranscription` | electron/main.js:282-298 | while a transcription is in flight it refuses and leaves the flag set; a missing key for the chosen provider fails before any request and lowers the flag; otherwise the job carries the provider, key, audio and language, with the flag raised |
| `MainProcess.MainProcess.FinishTranscription` | electron/main.js:299-305 | three attempts through the retry loop; success exactly when the last call succeeded; the flag is lowered on every exit |
| `MainProcess.MainProcess.TranscribeAudio` | electron/main.js:282-306 | the whole handler leaves the flag as it found it; refuses while in flight; fails without a key |
| `MainProcess.AnswerNotices` | electron/main.js:365-369 | one `new-answer` message per live window, none for an answer without a question |
| `MainProcess.MainProcess.GetAIAnswer` | electron/main.js:371-438 | a missing key fails with the provider's message and sends nothing; otherwise the overlay is told first, the service gets up to three attempts, and a success returns the parsed reply and broadcasts it |
| `Wav.PcmSample` | src/hooks/useAudioCapture.js:11-12 | the sample is in [-32768, 32767]; negative inputs give values ≤ 0, others ≥ 0 |
| `Wav.PcmSampleMonotone` | src/hooks/useAudioCapture.js:11-12 | the conversion is monotone |
| `Wav.Float32To16BitPCM` | src/hooks/useAudioCapture.js:8-15 | same length, each element the converted sample |
| `Wav.U16RoundTrip` | src/hooks/useAudioCapture.js:33-38 | little-endian 16-bit fields read back as written |
| `Wav.U32RoundTrip` | src/hooks/useAudioCapture.js:29-40 | little-endian 32-bit fields read back as written |
| `Wav.PcmBytesRoundTrip` | src/hooks/useAudioCapture.js:41-44 | the sample bytes decode back to the samples |
| `Wav.RiffHeaderFields` | src/hooks/useAudioCapture.js:28-30 | "RIFF", 36 + data size, "WAVE" |
| `Wav.FmtChunkFields` | src/hooks/useAudioCapture.js:31-38 | "fmt ", 16, format 1, one channel, sample rate, byte rate 2·rate, block align 2, 16 bits |
| `Wav.DataHeaderFields` | src/hooks/useAudioCapture.js:39-40 | "data" and the data size |
| `Wav.WavFileLayout` | src/hooks/useAudioCapture.js:17-46 | the file is 44 + 2n bytes, every header field is at its offset, and the samples' bytes follow from offset 44 in order |
| `Wav.CreateWavBlob` | src/hooks/useAudioCapture.js:17-46 | the buffer written in place equals the WAV file of the samples |
| `AudioCapture.Concat` | src/hooks/useAudioCapture.js:106-111 | the concatenation's length is the sum of the frame lengths |
| `AudioCapture.ConcatAppend` | src/hooks/useAudioCapture.js:106-111 | concatenation keeps arrival order across appended frames |
| `AudioCapture.Concatenate` | src/hooks/useAudioCapture.js:106-111 | the array filled frame by frame equals the concatenation |
| `AudioCapture.SumOfSquares` | src/hooks/useAudioCapture.js:114-115 | the loop computes the sum of squares |
| `AudioCapture.SilenceIsQuiet` | src/hooks/useAudioCapture.js:116-117 | all-zero audio is below the energy floor |
| `AudioCapture.FullScaleIsLoud` | src/hooks/useAudioCapture.js:116-117 | full-scale audio is above the energy floor |
| `AudioCapture.ChunkOf` | src/hooks/useAudioCapture.js:112-120 | a chunk is made exactly when there are at least 1000 samples above the energy floor, and it is the WAV file of their PCM conversion |
| `AudioCapture.ChunkSize` | src/hooks/useAudioCapture.js:112-120 | a chunk is 44 + 2·(total samples) bytes, at least 2044 |
| `AudioCapture.SilentDrainGivesNoChunk` | src/hooks/useAudioCapture.js:112-117 | a silent drain yields no chunk |
| `AudioCapture.Recent` | src/hooks/useAudioCapture.js:128 | the last (at most) 20 frames |
| `AudioCapture.SilenceStep` | src/hooks/useAudioCapture.js:138-149 | fires exactly on a quiet tick, unlatched, with a start recorded at least 1500 ms earlier, and then latches; a loud tick clears start and latch; a latched quiet tick changes nothing |
| `AudioCapture.QuietRunFiresAtMostOnce` | src/hooks/useAudioCapture.js:138-145 | a run of quiet ticks fires at most once, never when already latched, and ends latched when it fires |
| `AudioCapture.FirstQuietTickNeverFires` | src/hooks/useAudioCapture.js:140 | the first quiet tick only records the start |
| `AudioCapture.CaptureSession.Push` | src/hooks/useAudioCapture.js:279-283 | a non-empty frame is appended; an empty one is ignored |
| `AudioCapture.CaptureSession.Started` | src/hooks/useAudioCapture.js:295 | a successful start ends with listening on |
| `AudioCapture.CaptureSession.FlushChunk` | src/hooks/useAudioCapture.js:102-124 | an empty buffer is a no-op; otherwise the buffer is swapped out for an empty one and the chunk is that of the drained frames; the last-chunk time moves only when a chunk is sent |
| `AudioCapture.CaptureSession.CheckSilence` | src/hooks/useAudioCapture.js:126-150 | an empty buffer changes nothing; otherwise the latch takes one silence step on the last 20 frames |
| `AudioCapture.CaptureSession.Stop` | src/hooks/useAudioCapture.js:298-323 | the buffer is emptied, the silence start and latch are reset and listening ends |
| `Devices.IsVBCableLabel` | src/hooks/useAudioCapture.js:60-62 | a label is a VB-Cable label exactly when its lower-case form mentions "cable" or "vb-audio" (so "virtual cable" needs no separate test) |
| `Devices.IsVirtualDeviceLabel` | src/hooks/useAudioCapture.js:64-66 | a label is virtual exactly when it is a VB-Cable label or mentions "voicemod" or "virtual audio"; every VB-Cable label is virtual |
| `Devices.FindPhysicalMic` | src/hooks/useAudioCapture.js:68-75 | the first device that is not "default", "communications" or the excluded id and has a non-empty, non-virtual label; none exactly when no device qualifies |
| `Devices.SavedDeviceId` | src/hooks/useAudioCapture.js:162-163 | "default", "", null and undefined mean nothing saved |
| `Devices.SelectTarget` | src/hooks/useAudioCapture.js:170-181 | the selected id (possibly empty for a VB-Cable device): with a saved id it is that id; with nothing saved the device is a VB-Cable |
| `Devices.TargetIsListed` | src/hooks/useAudioCapture.js:170-181 | a chosen target is always one of the listed devices |
| `Devices.SavedListedDeviceWins` | src/hooks/useAudioCapture.js:172-174 | a saved id that is listed is the target |
| `Devices.SavedAbsentDeviceGivesNoTarget` | src/hooks/useAudioCapture.js:172-181 | a saved id that is not listed gives no target |
| `Devices.NothingSavedPicksFirstVBCable` | src/hooks/useAudioCapture.js:175-180 | with nothing saved the first VB-Cable device is the target, or none when there is none |
| `Devices.PlanSources` | src/hooks/useAudioCapture.js:183-232 | a plan has at least one source, the system source is the target and the microphone is another device; without a target with a non-empty id, start opens only the default microphone and fails exactly when it does not open; with one it has no source exactly when the target does not open and no physical microphone opens; the VB-Cable notice is emitted exactly for a VB-Cable target with a non-empty id that does not open; a successful start clears the banner |
| `Devices.BannerAfterStart` | src/hooks/useAudioCapture.js:196-232 | after a start the banner is up exactly when the start did not succeed and the banner was already up or a VB-Cable target with a non-empty id failed to open; such a target that fails with no microphone shows the notice and aborts |
| `Devices.EmptyIdCableOpensDefaultMic` | src/hooks/useAudioCapture.js:175-224 | a VB-Cable device selected with an empty id is treated as no target: the default microphone is opened and no notice is sent |
| `Transcript.TrimWindow` | src/hooks/useTranscription.js:30-33 | keeps exactly the entries younger than 60000 ms |
| `Transcript.TrimWindowAppend` | src/hooks/useTranscription.js:32 | the filter keeps relative order |
| `Transcript.TrimWindowIdempotent` | src/hooks/useTranscription.js:30-33 | trimming twice is trimming once |
| `Transcript.TrimWindowKeepsYoungBuffer` | src/hooks/useSpeechRecognition.js:15-18 | a buffer with nothing old is unchanged |
| `Transcript.SortByTs` | src/hooks/useTranscription.js:48-49 | sorted by timestamp and a permutation of the buffer |
| `Transcript.SortByTsStable` | src/hooks/useTranscription.js:48-49 | entries with equal timestamps keep their order |
| `Transcript.SortByTsOfSorted` | src/hooks/useSpeechRecognition.js:22-23 | an already sorted buffer is left as it is |
| `Transcript.NonEmptyTexts` | src/hooks/useTranscription.js:50-51 | only non-empty texts are kept |
| `Transcript.CombinedContainsEveryText` | src/hooks/useTranscription.js:48-53 | every non-empty fragment text occurs in the transcript |
| `Transcript.CombinedOfSorted` | src/hooks/useTranscription.js:48-53 | for a sorted buffer the transcript is its non-empty texts joined by single spaces |
| `Transcript.IsHallucination` | src/hooks/useTranscription.js:18-21 | a text shorter than two UTF-16 code units once trimmed is rejected |
| `Transcript.ShortTextIsHallucination` | src/hooks/useTranscription.js:19-20 | in the model, anything shorter than two UTF-16 code units once trimmed is rejected, and is then blank or a single character |
| `Transcript.MusicNoteIsKept` | src/hooks/useTranscription.js:18-21 | the single character U+1F3B5, two UTF-16 code units long, is not rejected |
| `Transcript.HallucinationIgnoresPadding` | src/hooks/useTranscription.js:19 | surrounding white space does not change the verdict |
| `Transcript.HallucinationIsDenylist` | src/hooks/useTranscription.js:5-21 | at two UTF-16 code units or more once trimmed, rejected exactly when the trimmed lower-case text is a listed phrase |
| `Transcript.ThankYouIsHallucination` | src/hooks/useTranscription.js:5-21 | " Thank You. " is rejected |
| `Transcript.QuestionIsNotHallucination` | src/hooks/useTranscription.js:5-21 | a real question is kept |
| `Text.Utf16Length` | src/hooks/useTranscription.js:20 | a string's UTF-16 length is between its code-point count and twice that count |
| `Text.WordCountCountsWordStarts` | src/hooks/useTranscription.js:62 | splitting on white-space runs and dropping empties counts the word starts |
| `Transcription.AcceptedText` | src/hooks/useTranscription.js:43-44 | text only from a successful reply with truthy data; a non-string datum becomes "" |
| `Transcription.ChunkBuffer` | src/hooks/useTranscription.js:42-46 | the window is trimmed; an accepted, non-hallucinated text is appended with the current time |
| `Transcription.ChunkKeepsBufferClean` | src/hooks/useTranscription.js:45-46 | the buffer never holds a hallucination and holds only young entries |
| `Transcription.NewTextExactly` | src/hooks/useTranscription.js:43-45 | a text is added exactly for a successful string reply that is not a hallucination |
| `Transcription.ChunkKeepsArrivalOrder` | src/hooks/useTranscription.js:46-53 | with a monotone clock the buffer stays in timestamp order and the transcript is its texts joined by spaces |
| `Transcription.TranscriptionHook.BeginChunk` | src/hooks/useTranscription.js:37-39 | proceeds only with the bridge, and then marks transcribing |
| `Transcription.TranscriptionHook.FinishChunk` | src/hooks/useTranscription.js:40-57 | transcribing ends on every path; an accepted text is pushed, becomes the live text, and the transcript is rebuilt |
| `Transcription.TranscriptionHook.Words` | src/hooks/useTranscription.js:62 | the word count of the transcript |
| `SpeechRecognition.Rebuilt` | src/hooks/useSpeechRecognition.js:20-23 | the trimmed buffer in timestamp order |
| `SpeechRecognition.RebuiltMembers` | src/hooks/useSpeechRecognition.js:15-23 | a fragment survives exactly when it was buffered and is young |
| `SpeechRecognition.RebuiltTextIsCombined` | src/hooks/useSpeechRecognition.js:20-29 | the rebuilt text is the shared transcript rule applied to the trimmed buffer |
| `SpeechRecognition.Finals` | src/hooks/useSpeechRecognition.js:54-63 | at most one phrase per result in the range |
| `SpeechRecognition.InterimEndsWithLast` | src/hooks/useSpeechRecognition.js:54-66 | when the last result is not final, the live text ends with its transcript |
| `SpeechRecognition.FinalPhrase` | src/hooks/useSpeechRecognition.js:58-60 | a final result contributes its trimmed text only when it is non-empty |
| `SpeechRecognition.AfterFinalsKeepsPhrases` | src/hooks/useSpeechRecognition.js:56-63 | after pushing final phrases the buffer is sorted, young and holds every phrase |
| `SpeechRecognition.AfterFinalsNonBlank` | src/hooks/useSpeechRecognition.js:58-61 | no blank text is ever buffered |
| `SpeechRecognition.InterimOfFinals` | src/hooks/useSpeechRecognition.js:64-66 | results that are all final give no live text |
| `SpeechRecognition.SpeechRecognitionHook.RebuildTranscript` | src/hooks/useSpeechRecognition.js:20-29 | the buffer becomes the rebuilt one and the returned text is the transcript |
| `SpeechRecognition.SpeechRecognitionHook.PushFinal` | src/hooks/useSpeechRecognition.js:57-63 | a blank final result changes nothing; otherwise it is pushed and the transcript rebuilt |
| `SpeechRecognition.SpeechRecognitionHook.OnResult` | src/hooks/useSpeechRecognition.js:54-74 | the buffer gets the final phrases from `resultIndex` on; the live text is the interim texts in order; the transcript is rebuilt when a phrase was pushed; one silence timer is pending, 2000 ms ahead |
| `SpeechRecognition.SpeechRecognitionHook.SilenceTimerTick` | src/hooks/useSpeechRecognition.js:71-73 | fires exactly once its deadline has passed, and is then no longer pending |
| `SpeechRecognition.SpeechRecognitionHook.Start` | src/hooks/useSpeechRecognition.js:31-92 | without the Web Speech API nothing changes; otherwise the recogniser runs and listening starts |
| `SpeechRecognition.SpeechRecognitionHook.OnEnd` | src/hooks/useSpeechRecognition.js:81-85 | restarts exactly when not stopped and a recogniser exists |
| `SpeechRecognition.SpeechRecognitionHook.Stop` | src/hooks/useSpeechRecognition.js:94-109 | stopped, no recogniser, no pending timer, not listening |
| `SpeechRecognition.SpeechRecognitionHook.Words` | src/hooks/useSpeechRecognition.js:111 | the word count of the transcript |
| `AIAnswer.TrimmedText` | src/hooks/useAIAnswer.js:7 | a falsy value gives the empty string; a truthy one its trimmed text |
| `AIAnswer.RequestFor` | src/hooks/useAIAnswer.js:10-13 | a non-empty utterance is sent as it is, an empty one is replaced by the last 500 characters of the context (all of it when shorter); the context is sent as it is, or replaced by the utterance when empty; neither is empty when either input is not |
| `AIAnswer.RequestAnswer` | src/hooks/useAIAnswer.js:4-17 | without the bridge the error object and no request; at most one request, whose reply decides the outcome |
| `AIAnswer.NoRequestIffNothingToAsk` | src/hooks/useAIAnswer.js:7-8 | no request exactly when both trimmed inputs are blank, and the result is then null |
| `AIAnswer.SentRequestFallbacks` | src/hooks/useAIAnswer.js:10-13 | the sent utterance is the trimmed utterance or the last 500 characters of the context; the sent context is the trimmed context or the utterance; neither is empty |
| `AIAnswer.Settle` | src/hooks/useAIAnswer.js:14-16 | a thrown error always carries a non-empty message |
| `AIAnswer.SettleCases` | src/hooks/useAIAnswer.js:14-16 | a success returns its data; a failure throws its message, or the default one when it is empty; an absent reply gives null; the `{ error }` object never comes from a reply |
| `Overlay.DismissMsOf` | src/components/Overlay.jsx:44-47 | zero or fewer seconds give 0; otherwise seconds·1000 |
| `Overlay.CopyParts` | src/components/Overlay.jsx:73 | exactly the truthy ones of question, answer and code snippet, in that order |
| `Overlay.CopyText` | src/components/Overlay.jsx:70-75 | copy acts exactly when there is an answer whose answer or question is truthy |
| `Overlay.CopyTextCases` | src/components/Overlay.jsx:73 | question and answer are joined by a blank line |
| `Overlay.CopyTextThreeParts` | src/components/Overlay.jsx:73 | a question, an answer and a code snippet are copied in that order, separated by blank lines |
| `Overlay.CopyTextContainsParts` | src/components/Overlay.jsx:73 | every truthy part occurs in the copied text |
| `Overlay.ShowCard` | src/components/Overlay.jsx:113 | the card is shown exactly when the overlay is not idle |
| `Overlay.OverlayWindow.SetState` | src/components/Overlay.jsx:16-37 | an unchanged state keeps the timer; a change clears it and arms one only for a shown answer with a positive delay |
| `Overlay.OverlayWindow.OnQuestionProcessing` | src/components/Overlay.jsx:55-58 | loading, no answer, no timer |
| `Overlay.OverlayWindow.OnAnswer` | src/components/Overlay.jsx:60-63 | the answer is stored and shown; the timer starts unless an answer was already shown |
| `Overlay.OverlayWindow.OnDismissAnswer` | src/components/Overlay.jsx:65-68 | idle, no answer, no timer |
| `Overlay.OverlayWindow.Tick` | src/components/Overlay.jsx:26-30 | fires exactly once the deadline has passed, and then the overlay is idle with no answer |
| `Overlay.OverlayWindow.SetDismissSeconds` | src/components/Overlay.jsx:39-49 | a non-null setting sets the delay; a changed delay replaces the pending timer while an answer is shown |
| `Overlay.OverlayWindow.Copy` | src/components/Overlay.jsx:70-75 | text is copied exactly when there is an answer with an answer or a question, and it is that answer's copy text |
| `App.StripMarkers` | src/App.jsx:23 | removing markers never lengthens the text |
| `App.StripMarkersKeeps` | src/App.jsx:23 | every character that is no marker is kept, in order: a stretch without `*`, an opening `[` or a closing `]` passes through unchanged |
| `App.StripMarkersOfPlain` | src/App.jsx:23 | a text without `[`, `]` or `*` is unchanged |
| `App.StripMarkersOfBracketHeader` | src/App.jsx:23 | `[X]` without `*` loses exactly its two brackets |
| `App.StripMarkersOfStarHeader` | src/App.jsx:23 | `**X**` without `*` in X loses exactly its two star pairs |
| `App.StripMarkersOfStarColonHeader` | src/App.jsx:23 | `**X**:` without `*` in X keeps X and the colon, and its label is X |
| `App.DropColon` | src/App.jsx:23 | a text ending in `:` loses that one colon; any other text is unchanged |
| `App.SafeText` | src/App.jsx:15 | a string is shown as itself and any other non-object as `String()` of it |
| `App.ClassifyBlankOrHeader` | src/App.jsx:20-25 | a line is blank exactly when it is all white space, and a header exactly when its trimmed form is bracketed or starred; a header's title is the label of its trimmed line and has no `**` |
| `App.ClassifyBulletOrNumbered` | src/App.jsx:26-37 | past the blank and header tests, a line is a bullet exactly when its trimmed form is a bullet line, and a numbered item exactly when it is a numbered line and not a bullet line |
| `App.LabelExamples` | src/App.jsx:23 | "[Q]", "\*\*Q:\*\*" and "\*\*Q\*\*:" all give the label "Q" |
| `App.LabelHasNoDoubleStar` | src/App.jsx:23 | every `**` marker is removed from a label |
| `App.Classify` | src/App.jsx:20-55 | a bullet's trimmed line starts with a bullet mark and white space, and its content is the rest after the mark and the white space that follows; a numbered item's number is the whole digit run the trimmed line starts with, and its content the rest after the `.` or `)` and the white space that follows; either content is non-empty |
| `App.BulletItem` | src/App.jsx:26-27 | the content is the line after the mark and the white space that follows it, and is non-empty |
| `App.NumberedItem` | src/App.jsx:35-37 | the number is the whole digit run the line starts with; the content is the line after the `.` or `)` and the white space that follows it, and is non-empty |
| `App.ItemContentUnique` | src/App.jsx:27-37 | the content rule admits exactly one content for a line |
| `App.TableLineCount` | src/App.jsx:45 | a table line is one with at least two vertical bars |
| `App.ClassifyTableOrPlain` | src/App.jsx:45-55 | a table row exactly when no earlier kind matched and the trimmed line has at least two vertical bars, with the cells of that line; plain otherwise, rendered untrimmed |
| `App.Cells` | src/App.jsx:46 | only non-empty cells are kept, never more than the pieces |
| `App.CellsAreTrimmedPieces` | src/App.jsx:46 | every cell is a trimmed piece of the line |
| `App.CellsOfFullPieces` | src/App.jsx:46 | when no trimmed piece is empty, the cells are exactly the trimmed pieces |
| `App.CellsAppend` | src/App.jsx:46 | cells of concatenated pieces are the concatenated cells, so the order is kept |
| `App.FormattedAnswer` | src/App.jsx:13-55 | nothing is formatted for a falsy text; otherwise there is one item per line of the text, each the classification of that line |
| `App.FormattedLinesCoverText` | src/App.jsx:15-16 | the lines rejoin to the text |
| `App.ParsedAnswerIsNeverStringified` | src/App.jsx:15 | an answer from the parser is never an object, so it is shown as text |
| `App.CopyAnswerText` | src/App.jsx:147-149 | the copied text contains the question's text and the answer's text |
| `App.CopyAnswerTextShape` | src/App.jsx:147-149 | "Q: …\n\nA: …", with the code block appended exactly when there is a code snippet |
| `App.StatusOf` | src/App.jsx:152 | paused exactly when not listening; processing exactly when listening and transcribing; listening otherwise |
| `App.MainViewExactly` | src/App.jsx:109-121 | from the wizard the main view is chosen exactly when the setup flag or one of the three keys is truthy |
| `App.ViewAfterSettings` | src/App.jsx:109-121 | the view stays or becomes the main view; the main view is never left; a change needs a successful reply with truthy data |
| `App.SilenceRequest` | src/App.jsx:91-93 | nothing to ask exactly when both are blank; otherwise the two trimmed texts |
| `App.SilenceRequestSent` | src/App.jsx:90-97 | the silence handler sends the request the answer hook derives from the trimmed texts |
| `App.AnswerPanel.AddAnswerToHistory` | src/App.jsx:73-80 | the new entry, with the current time as its id and timestamp, comes first and the old ones follow in order; loading and error are cleared |
| `App.AnswerPanel.BeginOnSilence` | src/App.jsx:90-95 | nothing changes with nothing to ask; otherwise the error is cleared and loading starts |
| `App.AnswerPanel.FinishOnSilence` | src/App.jsx:96-101 | a thrown error is recorded (or the default message) and loading ends; any other outcome changes nothing |
| `SetupWizard.KeyText` | src/components/SetupWizard.jsx:25-26 | a falsy stored key shows as "", a string key as itself |
| `SetupWizard.KeySetting` | src/components/SetupWizard.jsx:39-40 | an empty input is sent as undefined, and only then |
| `SetupWizard.FinalSettings` | src/components/SetupWizard.jsx:38-42 | three entries, OpenAI key, Anthropic key and provider in that order; a key is undefined exactly when its input is empty; the provider is always set |
| `SetupWizard.SavedSettings` | src/components/SetupWizard.jsx:38-42 | saving deletes empty keys, stores filled keys and the provider, and keeps every other setting |
| `SetupWizard.ReloadedSettingsRoundTrip` | src/components/SetupWizard.jsx:22-42 | finishing the wizard on reloaded keys stores the same keys again |
| `SetupWizard.TestOutcome` | src/components/SetupWizard.jsx:50-78 | the test ends succeeded or failed; a failure carries a non-empty error and no text; a success carries no error |
| `SetupWizard.TestSucceedsOnlyOnTranscription` | src/components/SetupWizard.jsx:50-78 | success, with the text, exactly when a recording was made, the bridge exists and the transcription succeeds; otherwise an error with a non-empty message |
| `SetupWizard.Wizard.CanProceed` | src/components/SetupWizard.jsx:80-84 | step 1 needs a non-blank OpenAI key, step 2 the OpenAI box or a non-blank Anthropic key, steps 3 and 4 always proceed |
| `SetupWizard.Wizard.LoadSettings` | src/components/SetupWizard.jsx:22-31 | a successful reply fills the two keys and the provider box; anything else changes nothing |
| `SetupWizard.Wizard.HandleNext` | src/components/SetupWizard.jsx:33-44 | below step 4 it advances; at step 4 it returns the final settings and stays |
| `SetupWizard.Wizard.PressNext` | src/components/SetupWizard.jsx:221-224 | the Next button does nothing while the step cannot proceed |
| `SetupWizard.Wizard.HandleBack` | src/components/SetupWizard.jsx:46-48 | above step 1 it goes back one; the step stays within 1..4 |
| `SetupWizard.Wizard.BeginTest` | src/components/SetupWizard.jsx:51-52 | the test is running and recording |
| `SetupWizard.Wizard.FinishTest` | src/components/SetupWizard.jsx:53-77 | recording ends and the result is the test outcome |

## Left out

- Window creation, the tray, global shortcuts, IPC plumbing and the application lifecycle are platform glue with no logic to prove.
- The HTTPS multipart request to the speech service and the OpenAI and Anthropic SDK calls are not modelled. Each remote service is a function of the request and the attempt number. A rejected promise is a `Fail` attempt or an absent reply.
- Timers and clocks are not modelled. `setTimeout`, `setInterval` and `Date.now` become a `now` parameter and an optional deadline, so real waiting is not modelled.
- The 3-second chunk interval is left out: the caller invokes `CheckSilence` and `FlushChunk` in that order on each tick.
- `AudioContext`, the audio worklet, `getUserMedia` and `enumerateDevices` are left out. Device lists, stream outcomes and frames are parameters or arrive through `Push`.
- `blobToBase64` and `recordFor` are left out because they are browser I/O. A chunk is the WAV byte sequence, not its base64 text.
- `JSON.parse` is an abstract parser from a text to an object's members. `JSON.stringify` is a parameter of the answer formatter.
- Floating point is not modelled:
  - samples are reals;
  - RMS is compared as a sum of squares against threshold² times the sample count;
  - the PCM conversion truncates exactly.
- `Json.Json` holds only integer numbers, in settings and in parsed model replies alike. A fractional `overlayDismissSeconds`, or a reply such as `{"answer": {"ratio": 1.5}}` whose flattened text shows `1.5`, is not modelled.
- `get-settings`, `set-ignore-mouse`, `status-change` and `copy-to-clipboard` only forward values and are not modelled.
- `handleSetupComplete` and `handleSaveSettings` in the control panel are not modelled, because each is a save followed by a reload. Their merge is `MainProcess.MainProcess.SaveSettings`.
- The speech recogniser's language setting and its error logging are not modelled.
- React rendering, styling, the settings panel, the status bar and the answer card are not modelled.
- `MainProcess.MainProcess.TranscribeAudio` does not state the success value; `MainProcess.MainProcess.FinishTranscription` states it for the part after the `await`.
- `AnswerParsing.ParseAIResponse` states only the field types in its own contract; `AnswerParsing.ExtractedPassesThrough`, `AnswerParsing.QuestionSynthesis` and `AnswerParsing.SynthesisKeepsGivenFields` state the result for each branch.
- `Text.ToLower` folds only ASCII letters, while JavaScript's `toLowerCase` uses full Unicode case mapping. So the model keeps a text such as "THAN\u212A YOU" (Kelvin sign), which the source lower-cases to "thank you" and rejects.
- `Transcript.ShortTextIsHallucination`, `Transcript.HallucinationIsDenylist` and `Transcript.IsHallucination` inherit that ASCII-only lower-casing. The source measures the length after `toLowerCase`, which can lengthen a text: "\u0130" (one code unit) lower-cases to two code units and is kept by the source, while the model rejects it as too short.
- `AnswerParsing.FallbackAnswer`, `AnswerParsing.QuestionSynthesis` and `AIAnswer.RequestFor` cut strings by code points, while `substring`, `slice(0, 4000)`, `slice(0, 200)` and `slice(-500)` count UTF-16 code units. On text outside the Basic Multilingual Plane the source keeps fewer characters and can split a surrogate pair, which a Dafny string cannot hold.
- `Wav.PcmBytes` writes each sample little-endian. The source copies the `Int16Array`'s buffer, so its byte order is the host's; the model assumes a little-endian host.
- `MainProcess.ApplyEntry` and `MainProcess.Merge` treat keys as flat names. The settings store reads a key with a dot as a nested path, which the model does not capture.
- `AnswerParsing.Parsed` keeps only the five answer members. The source passes every member of the parsed object on, and the control panel's history spread lets members named `id` or `timestamp` override the entry's own; the model does not capture extra members.
- `MainProcess.MainProcess.GetAIAnswer` runs the whole handler as one step, although it awaits the service. Two overlapping `get-ai-answer` calls, a window closing during the wait, and a settings change between attempts (the Anthropic model name is read on every attempt) are not captured.
- `App.HistoryEntry` keeps the answer's five members in `data`; the override of `id` or `timestamp` by parsed members of the same name is covered by the `AnswerParsing.Parsed` line.
- `SetupWizard.Wizard.FinishTest` goes straight to the final result. The brief state in which recording has stopped but the test still runs, while the transcription is awaited, is not modelled.
- `SetupWizard.KeyText` turns a truthy non-string stored key into its text on load. The source keeps the raw value, so a numeric key would be saved back as a number rather than a string.
