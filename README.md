# Kova scam-call protection: a Dafny model

Kova listens to a phone call, labels who is speaking, and scores the call for
scam risk with a language model. When a scam is confirmed it alerts the user's
emergency contacts and reports the caller's number. Otherwise it may suggest a
verification question. A companion chat answers the user's questions about the
live call.

The project models:

- the back end's session state and registry;
- the transcript buffer and speaker identification;
- the scam detector, the question generator and the routing graph between them;
- the protector chat;
- the suspicious-number table;
- the wake-word router.

On the front end it models:

- the wake-word hook;
- the active-call screen's status and simulation;
- the phone-number dialog;
- the analytics helpers;
- the chat panel.

Language-model calls, JSON decoding, the database, the alert sender and the
clock are parameters. A model call is a function returning `Option` (`None`
when it raises), a decoder likewise, and "now" is a number passed in.

One module per source file:

| module | file |
|---|---|
| `Strings` | shared string helpers: ASCII case, the ASCII part of Python's and JavaScript's whitespace, trimming, word splitting, substring search, decimal rendering |
| `SessionStates` | `session_state.dfy` |
| `SessionManager` | `session_manager.dfy` |
| `ScamDetector` | `scam_detector.dfy` |
| `QuestionGenerator` | `question_generator.dfy` |
| `Workflow` | `workflow.dfy` |
| `SpeakerIdentifier` | `speaker_identifier.dfy` |
| `TranscriptProcessors` | `transcript_processor.dfy` |
| `ChatBot` | `chat_bot.dfy` |
| `SuspiciousNumbers` | `supabase_client.dfy` |
| `WakeWordRouter` | `wakeword_router.dfy` |
| `WakeWordHook` | `wake_word_hook.dfy` |
| `ActiveCall` | `active_call.dfy` |
| `PhoneNumberModal` | `phone_number_modal.dfy` |
| `Analytics` | `analytics.dfy` |
| `ChatPanel` | `chat_panel.dfy` |

Objects whose fields the source updates in place are classes: the session, the
registry, the transcript processor, the number table, the wake-word listener,
the wake-word hook's refs and state, the call screen, the phone dialog and the
chat panel. The pipeline graph returns fresh state records, so it works on a
datatype.

## Model

| member | source | states |
|---|---|---|
| SessionStates.AppendCapped | backend/services/session_state.py:23-29 | The history never exceeds 100 turns and its last entry is the new turn. Below the cap the turn is simply appended. At the cap the oldest turn is dropped. |
| SessionStates.AppendCappedKeepsSuffix | backend/services/session_state.py:25-29 | Everything before the new turn is the newest part of the old history, in its old order. The new turn appears exactly once, at the end. |
| SessionStates.SessionState.constructor | backend/services/session_state.py:8-21 | A new session has empty transcript and chat histories, risk 0, confidence 0 and reasoning "". |
| SessionStates.SessionState.AddTurn | backend/services/session_state.py:23-29 | The transcript history becomes the capped append of {speaker, text}. Scores, reasoning and the chat history are not touched. |
| SessionStates.SessionState.ToDict | backend/services/session_state.py:31-39 | The summary reports the scores and both history lengths. |
| SessionManager.SessionRegistry.constructor | backend/services/session_manager.py:6 | The registry starts empty. |
| SessionManager.SessionRegistry.GetSession | backend/services/session_manager.py:8-10 | Returns the stored session for a known id and None for an unknown one. |
| SessionManager.SessionRegistry.SaveSession | backend/services/session_manager.py:12-14 | Afterwards the id maps to the saved session, overwriting any earlier one. Every other id keeps its entry. |
| SessionManager.SessionRegistry.DeleteSession | backend/services/session_manager.py:16-19 | Afterwards the id is absent. An absent id leaves the registry unchanged. Every other id keeps its entry. |
| ScamDetector.FormatMessageParts | backend/services/scam_detector.py:21-25 | The line is "**" + the speaker capitalised + "**: " + the text, with defaults "Unknown" and "". The text is carried over unchanged. |
| ScamDetector.HistoryLines | backend/services/scam_detector.py:43-45 | Exactly the newest min(n, 20) turns are formatted, oldest first. |
| ScamDetector.FormatHistoryShape | backend/services/scam_detector.py:43-48 | Empty history gives the placeholder. Otherwise the block starts with the oldest of the shown turns. |
| ScamDetector.RemoveFencesNoFence | backend/services/scam_detector.py:71-72 | Removing every "```" leaves no three consecutive backticks. |
| ScamDetector.StripJsonFences | backend/services/scam_detector.py:70-72 | A reply containing "```json" comes back with no fence left. Any other reply is untouched. |
| ScamDetector.StripJsonFencesBlock | backend/services/scam_detector.py:70-72 | A payload without backticks, wrapped as "```json" + payload + "```", comes back exactly. |
| Strings.RemoveAllKeepsPrefix | backend/services/scam_detector.py:72 | Removing a pattern keeps a leading part in which no occurrence starts, unchanged and in front of the rest. |
| Strings.RemoveAllAbsent | backend/services/scam_detector.py:72 | Text that does not contain the pattern is returned unchanged. |
| ScamDetector.ApplyVerdict | backend/services/scam_detector.py:77-87 | The chunk is appended exactly once, whether the call and decoding succeed or not. On success each score is replaced by the reply's value, or kept when the key is missing, and the reasoning becomes the reply's or "". On failure scores and reasoning are unchanged. |
| ScamDetector.AnalyzeTranscript | backend/services/scam_detector.py:27-87 | The session's history, scores and reasoning end up exactly as ApplyVerdict describes for the old values and the reply to the prompt built before the chunk is added. |
| QuestionGenerator.LastSpeaker | backend/services/question_generator.py:49-51 | The newest turn's speaker, or "unknown" when there is no turn or it has no speaker. |
| QuestionGenerator.GenerateQuestion | backend/services/question_generator.py:32-86 | A question is returned only with a necessity score of at least 7. A missing score counts as 0. A failed call or decode gives (None, 0). The session is only read. |
| Workflow.RouteAfterAnalysis | backend/services/workflow.py:120-140 | The route is the alert node iff risk >= 80, confidence >= 70 and at least 30 s have passed since the last alert. A confirmed scam never goes to the question generator. Otherwise confidence < 50 means a question and anything else ends. |
| Workflow.AnalyzeNode | backend/services/workflow.py:49-68 | Only the history, the scores and the reasoning change. The chunk is appended with the cap. On a failed analysis the scores stay and the reasoning is "", because the detector is given a fresh session. |
| Workflow.QuestionNode | backend/services/workflow.py:71-85 | Only the suggested question and the necessity score change. A question implies a score of at least 7. |
| Workflow.AlertRequestOf | backend/services/workflow.py:96-108 | The caller number goes to the sender iff it is known, non-empty and not yet reported. Contacts and reasoning are passed through. |
| Workflow.AlertNodeStep | backend/services/workflow.py:88-115 | With no contacts only alert_sent changes, to false. With contacts, alert_sent is the sender's answer and the alert time is now. Only those fields and the reported flag change, and the flag never goes from true to false. |
| Workflow.RunGraph | backend/services/workflow.py:145-173 | One pass through the graph never clears the reported flag. |
| Workflow.ReportedAtMostOnce | backend/services/workflow.py:96-114 | A run that hands the number to the sender leaves it marked reported. A run starting from a reported number hands over none. So the number reaches the sender at most once per session. |
| Workflow.InitialState | backend/services/workflow.py:218-231 | Each run starts with no question, necessity 0, no alert and empty reasoning. Missing history or contacts become empty lists. The other fields are the inputs. |
| Workflow.ProcessChunk | backend/services/workflow.py:189-234 | A reported number stays reported. A sent alert carries this run's time. A suggested question has a score of at least 7. |
| SpeakerIdentifier.ContextLineParts | backend/services/speaker_identifier.py:36-38 | A context line splits into the upper-cased label, ": ", the text and a newline. |
| SpeakerIdentifier.ContextEmpty | backend/services/speaker_identifier.py:33-43 | The context is empty exactly when there are no segments. Otherwise it ends in a newline. |
| SpeakerIdentifier.ContextAppend | backend/services/speaker_identifier.py:36-38 | The context of a concatenation is the concatenation of the contexts: one line per segment, in order. |
| SpeakerIdentifier.BuildHistoryContext | backend/services/speaker_identifier.py:33-38 | The loop renders exactly the last 10 segments. The result is empty iff the history is. |
| SpeakerIdentifier.BeforeFence | backend/services/speaker_identifier.py:75-76 | The result is the prefix before the first fence: no fence starts inside it, and when it stops short a fence starts right after it. |
| SpeakerIdentifier.CleanReply | backend/services/speaker_identifier.py:69-77 | A stripped reply without a leading fence is returned as is. One with a leading fence is cut to fence-free text. |
| SpeakerIdentifier.FencedPayloadSpan | backend/services/speaker_identifier.py:74-77 | After the opening fence, the payload is exactly the text from past an optional "json" tag up to the next fence, or to the end when there is none. |
| SpeakerIdentifier.JsonTagKept | backend/services/speaker_identifier.py:75-76 | The text before the first fence starts with "json" exactly when the text after the opening fence does. |
| SpeakerIdentifier.BeforeFenceOfBlock | backend/services/speaker_identifier.py:75 | In "json" + payload + "```" with a payload without backticks, the text before the first fence is "json" + payload. |
| SpeakerIdentifier.CleanReplyJsonBlock | backend/services/speaker_identifier.py:69-77 | A payload without backticks, sent back as "```json" + payload + "```", comes out exactly. |
| SpeakerIdentifier.NormalizeLabel | backend/services/speaker_identifier.py:85-87 | Every label becomes "user" or "caller": "user" iff it lower-cases to "user". |
| SpeakerIdentifier.Validated | backend/services/speaker_identifier.py:81-91 | Every surviving segment is labelled "user" or "caller", and there are no more of them than items. |
| SpeakerIdentifier.ValidatedAppend | backend/services/speaker_identifier.py:81-91 | Validation is item by item: the result for a concatenation is the concatenation of the results, so survivors keep their order. |
| SpeakerIdentifier.ValidateSegments | backend/services/speaker_identifier.py:81-91 | The loop keeps exactly the dicts with both keys, normalising labels and keeping texts. |
| SpeakerIdentifier.SegmentsOf | backend/services/speaker_identifier.py:93-98 | The result is never empty and always validly labelled. A failure, or no valid segment, gives [caller: transcript]. Otherwise it is the validated segments. |
| SpeakerIdentifier.Identify | backend/services/speaker_identifier.py:21-98 | identify_speakers never returns an empty list and labels every segment "user" or "caller". |
| SpeakerIdentifier.IdentifySpeakers | backend/services/speaker_identifier.py:21-98 | The imperative version returns exactly what Identify describes. |
| TranscriptProcessors.ExtendHistory | backend/services/transcript_processor.py:52-56 | Within the limit the history is old ++ new. Past it, the history is the last 30 entries of that concatenation. |
| TranscriptProcessors.ExtendHistoryValid | backend/services/transcript_processor.py:52-56 | Extending keeps the history within max(limit, 30) and keeps every label valid. |
| TranscriptProcessors.TranscriptProcessor.constructor | backend/services/transcript_processor.py:12-23 | The processor stores the thresholds and starts with an empty buffer and history. |
| TranscriptProcessors.TranscriptProcessor.AddTranscript | backend/services/transcript_processor.py:25-27 | The buffer becomes old + " " + piece, and nothing else changes. |
| TranscriptProcessors.TranscriptProcessor.ShouldProcess | backend/services/transcript_processor.py:29-31 | True iff the buffer's whitespace-split word count reaches min_words. |
| TranscriptProcessors.TranscriptProcessor.ProcessBuffer | backend/services/transcript_processor.py:33-61 | A blank buffer returns [] and changes nothing. Otherwise it returns exactly the identifier's segments for the stripped buffer, extends the history with them and empties the buffer. The history bound is kept. |
| TranscriptProcessors.TranscriptProcessor.AddSegments | backend/services/transcript_processor.py:52-56 | The history becomes ExtendHistory of the old history and the segments. |
| TranscriptProcessors.TranscriptProcessor.Clear | backend/services/transcript_processor.py:63-66 | Buffer "" and history []. |
| TranscriptProcessors.AddTranscriptWords | backend/services/transcript_processor.py:25-31 | Adding a piece adds exactly its words to the buffer's word list, so the separating blank never merges two words. |
| ChatBot.ChatLines | backend/services/chat_bot.py:22-26 | Exactly the newest min(n, 20) turns, in original order, one "SPEAKER: text" line each. |
| ChatBot.FormatHistoryForContext | backend/services/chat_bot.py:17-28 | The loop yields the placeholder for empty history. Otherwise it yields the lines joined by newlines. |
| ChatBot.HistoryContextShowsTurn | backend/services/chat_bot.py:22-28 | Each of the newest 20 turns appears as its own line in the block. |
| ChatBot.ProtectorPrompt | backend/services/chat_bot.py:38-56 | The prompt contains "Current Risk Score: r/100", the transcript block and the user's question. |
| ChatBot.ChatWithProtector | backend/services/chat_bot.py:30-73 | The answer is the model's reply, or the fixed fallback sentence when the call fails. |
| ChatBot.RiskLine85 | backend/services/chat_bot.py:38 | Risk 85 renders as "Current Risk Score: 85/100". |
| ChatBot.CallerLine | backend/services/chat_bot.py:24-26 | A caller turn with text t renders as "CALLER: " followed by t. |
| ChatBot.ChatbotTestScenario | backend/tests/test_chatbot.py:45-46 | For the test's session, the prompt holds both the risk line and the caller's capitalised line. |
| SuspiciousNumbers.Reported | backend/services/supabase_client.py:56-77 | An existing number's count goes up by one and a new number starts at 1. Every other number keeps its count. |
| SuspiciousNumbers.ReportAllCounts | backend/services/supabase_client.py:56-77 | After a series of reports, a number's count is its old count plus the number of times it was reported. |
| SuspiciousNumbers.SuspiciousNumberTable.ReportSuspiciousNumber | backend/services/supabase_client.py:30-83 | Returns True iff the number is non-empty and the database does not fail. On success the table is Reported(old, phone). Otherwise the table is unchanged. |
| WakeWordRouter.KovaMatchReduces | backend/routers/wakeword.py:53-67 | For a "kova" wake word, a transcript matches iff it contains "ko" or "co" and also "activate". The "va" test is implied by "activate". |
| WakeWordRouter.ActivateHasVa | backend/routers/wakeword.py:61-66 | "activate" contains "va", which is why the "va" test is redundant. |
| WakeWordRouter.PlainMatch | backend/routers/wakeword.py:68-70 | Any other wake word matches by substring. |
| WakeWordRouter.FirstMatch | backend/routers/wakeword.py:33-70 | A detected transcript is non-empty and matches the wake word. |
| WakeWordRouter.FirstMatchFinds | backend/routers/wakeword.py:36-70 | A message whose first transcript is non-empty and matches, preceded only by messages without a channel or whose first transcript is empty or does not match, is found: its transcript is the result. |
| WakeWordRouter.FirstMatchIsFirst | backend/routers/wakeword.py:36-70 | Conversely, a result is the first transcript of such a matching message, and every earlier message was passed over. |
| WakeWordRouter.SkippedNeverMatch | backend/routers/wakeword.py:41-46 | Messages without a channel, or with an empty transcript, never trigger detection. |
| WakeWordRouter.WakeWordListener.constructor | backend/routers/wakeword.py:27-28 | Stores the lower-cased wake word; nothing detected, sent or forwarded yet. |
| WakeWordRouter.WakeWordListener.ReceiveTranscripts | backend/routers/wakeword.py:33-78 | Detection happens iff some message matches before any channel with no alternatives (the `IndexError` at wakeword.py:44 is caught at 77-78 and ends the receiver). The first such transcript is exactly what is sent (FirstMatchFinds, FirstMatchIsFirst). An already-set flag stays set, and at most one detection is ever sent. |
| WakeWordRouter.WakeWordListener.ForwardAudio | backend/routers/wakeword.py:80-87 | Audio is forwarded only while nothing has been detected. |
| WakeWordHook.StripPunct | frontend/src/hooks/useWakeWord.ts:86-91 | The result has no punctuation, is no longer than the input, and keeps lower case lower. |
| WakeWordHook.Collapse | frontend/src/hooks/useWakeWord.ts:86-91 | Empty iff the input is. A leading whitespace run becomes one blank and any other first character is kept. |
| WakeWordHook.CollapseClean | frontend/src/hooks/useWakeWord.ts:86-91 | On lower-case, punctuation-free text, collapsing leaves only lower-case, non-punctuation characters with no whitespace other than ' '. |
| WakeWordHook.CollapseNoDouble | frontend/src/hooks/useWakeWord.ts:86-91 | No two consecutive blanks remain after collapsing. |
| WakeWordHook.NormalizeTextShape | frontend/src/hooks/useWakeWord.ts:86-91 | normalizeText yields lower-case, punctuation-free text with single inner blanks and no outer blank. |
| WakeWordHook.NormalizeTextKeeps | frontend/src/hooks/useWakeWord.ts:86-91 | Text already in that shape is returned unchanged. |
| WakeWordHook.NormalizeTextIdempotent | frontend/src/hooks/useWakeWord.ts:86-91 | Normalising twice is the same as normalising once. |
| WakeWordHook.MatchNormalizedCases | frontend/src/hooks/useWakeWord.ts:94-112 | A normalised transcript matches iff it contains the normalised phrase or one of the fixed spellings. |
| WakeWordHook.EmptyPhraseMatchesAll | frontend/src/hooks/useWakeWord.ts:94-112 | A phrase that normalises to "" matches every transcript. |
| WakeWordHook.MatchIgnoresNormalizing | frontend/src/hooks/useWakeWord.ts:94-112 | Normalising either argument first does not change the match. |
| WakeWordHook.WakeBetweenExists | frontend/src/hooks/useWakeWord.ts:133-149 | The backwards scan finds a wake result iff some result in the range matches. |
| WakeWordHook.WakeWordDetector.constructor | frontend/src/hooks/useWakeWord.ts:68-79 | Not listening, not activated, no error; shouldListen is autoStart; no recognizer and no pending timer. Matching is containsWakePhrase against the configured phrase. |
| WakeWordHook.WakeWordDetector.OnStart | frontend/src/hooks/useWakeWord.ts:128-131 | Listening is on and the error is cleared. |
| WakeWordHook.WakeWordDetector.OnResult | frontend/src/hooks/useWakeWord.ts:133-149 | Some result from resultIndex on matches iff the hook activates: it fires the callback once and stops the recognizer. Listening ends later, when the recognizer reports its end. With no match nothing changes. |
| WakeWordHook.WakeWordDetector.OnError | frontend/src/hooks/useWakeWord.ts:151-167 | "no-speech" and "aborted" are ignored. "not-allowed" sets the permission error and stops listening. Any other code becomes the error. |
| WakeWordHook.WakeWordDetector.OnEnd | frontend/src/hooks/useWakeWord.ts:169-186 | Listening ends. A restart timer is scheduled only when listening is wanted and none is pending, so at most one timer is ever pending. |
| WakeWordHook.WakeWordDetector.RestartTimerFires | frontend/src/hooks/useWakeWord.ts:175-184 | The timer clears the restart flag. It restarts recognition only if listening is still wanted and a recognizer exists. |
| WakeWordHook.WakeWordDetector.Start | frontend/src/hooks/useWakeWord.ts:192-214 | An unsupported browser only records the not-supported error. Otherwise listening is wanted, activation and error are reset and recognition starts. |
| WakeWordHook.WakeWordDetector.Stop | frontend/src/hooks/useWakeWord.ts:217-223 | Listening is neither wanted nor active. The recognizer is stopped if one exists. |
| WakeWordHook.WakeWordDetector.Mount | frontend/src/hooks/useWakeWord.ts:226-239 | With autoStart on a supported browser, mounting starts. Otherwise nothing changes. |
| WakeWordHook.WakeWordDetector.Unmount | frontend/src/hooks/useWakeWord.ts:226-239 | Unmounting stops listening and drops the recognizer. |
| ActiveCall.StatusOf | frontend/src/pages/ActiveCall.tsx:53-57 | Safe iff risk < 30, warning iff 30 <= risk < 70, danger iff risk >= 70. |
| ActiveCall.StatusBoundaries | frontend/src/pages/ActiveCall.tsx:53-57 | 29/30 and 69/70 fall on different sides of each threshold. |
| ActiveCall.TickRisk | frontend/src/pages/ActiveCall.tsx:64 | A tick adds 5 up to the cap of 95, never exceeds it, and never lowers a risk within the cap. |
| ActiveCall.TickTranscript | frontend/src/pages/ActiveCall.tsx:65-68 | The newest phrase is appended with its number and at most 5 lines stay. The earlier lines are the old ones' newest part. |
| ActiveCall.SteadyPhraseNumber | frontend/src/pages/ActiveCall.tsx:65-68 | Once 5 lines are shown, every later tick shows 5 lines whose last is phrase 6: the counter stops advancing. |
| ActiveCall.CallScreen.constructor | frontend/src/pages/ActiveCall.tsx:11-14 | Risk 0, empty transcript, safe status, simulation off. |
| ActiveCall.CallScreen.DeriveStatus | frontend/src/pages/ActiveCall.tsx:53-57 | The status matches the risk thresholds. |
| ActiveCall.CallScreen.Tick | frontend/src/pages/ActiveCall.tsx:63-69 | Risk and transcript advance by one step. Risk stays within 0..95 and never falls, and the transcript stays within 5 lines. |
| ActiveCall.CallScreen.Toggle | frontend/src/pages/ActiveCall.tsx:232-237 | Simulation flips. Turning it on resets risk and transcript, and turning it off keeps them. |
| PhoneNumberModal.Cleaned | frontend/src/components/PhoneNumberModal.tsx:17-20 | Cleaning removes every (ASCII) whitespace character, hyphen, parenthesis and dot, and nothing else. |
| PhoneNumberModal.CleanedAppend | frontend/src/components/PhoneNumberModal.tsx:17-20 | Cleaning works character by character over concatenation. |
| PhoneNumberModal.ValidHasNineDigits | frontend/src/components/PhoneNumberModal.tsx:17-20 | Every accepted number contains at least 9 digits. |
| PhoneNumberModal.PlusNineDigitsValid | frontend/src/components/PhoneNumberModal.tsx:17-20 | "+" followed by 9 or more digits is accepted. |
| PhoneNumberModal.SeparatorIrrelevant | frontend/src/components/PhoneNumberModal.tsx:17-20 | Inserting a separator anywhere never changes validity. |
| PhoneNumberModal.CleanedTrim | frontend/src/components/PhoneNumberModal.tsx:17-20 | Trimming before cleaning changes nothing. |
| PhoneNumberModal.TrimKeepsValidity | frontend/src/components/PhoneNumberModal.tsx:22-33 | The trimmed number is valid iff the raw one is. |
| PhoneNumberModal.PhoneDialog.constructor | frontend/src/components/PhoneNumberModal.tsx:13-14 | Empty number, no error, nothing submitted. |
| PhoneNumberModal.PhoneDialog.Change | frontend/src/components/PhoneNumberModal.tsx:77-80 | Typing stores the value and clears the error. |
| PhoneNumberModal.PhoneDialog.HandleSubmit | frontend/src/components/PhoneNumberModal.tsx:22-33 | A blank number sets the empty error. An invalid one sets the invalid error. A valid one is submitted trimmed. Every submitted number is valid. |
| PhoneNumberModal.PhoneDialog.HandleKeyDown | frontend/src/components/PhoneNumberModal.tsx:35-39 | Enter on a valid number submits. Anything else changes nothing. |
| Analytics.DurationOf | frontend/src/pages/Analytics.tsx:90-96 | Under 60 s gives seconds. Under an hour gives minutes and seconds that rebuild the total. Otherwise hours and minutes with the remainder under a minute. |
| Analytics.MinSecsReadsBack | frontend/src/pages/Analytics.tsx:90-96 | A minute-range duration renders as "Xm Ys". |
| Analytics.RiskDistribution | frontend/src/pages/Analytics.tsx:78-87 | No analytics gives no slices. Otherwise at most three slices, each with a positive count. |
| Analytics.PositiveOfThree | frontend/src/pages/Analytics.tsx:78-87 | The filter keeps exactly the slices with positive counts. |
| Analytics.RiskDistributionShape | frontend/src/pages/Analytics.tsx:78-87 | A risk level appears iff its count is positive, in the order high, medium, low. |
| Analytics.DayEntry | frontend/src/pages/Analytics.tsx:60-71 | The weekday name is used, and the day's calls and scams are read from the stats, 0 when absent. |
| Analytics.DailyChartData | frontend/src/pages/Analytics.tsx:55-75 | Exactly 7 entries, oldest day first, each the entry for its day. |
| Analytics.FormatDate | frontend/src/pages/Analytics.tsx:99-110 | A missing date gives "Never". Otherwise "Today", "Yesterday", "n days ago" under a week, or the locale date. |
| ChatPanel.SendEnabledPassesGuard | frontend/src/components/ChatPanel.tsx:204 | When the send button is enabled, the send guard passes: non-blank input and not loading. |
| ChatPanel.ChatPanelState.constructor | frontend/src/components/ChatPanel.tsx:19-23 | No messages, empty input, not loading, no error. |
| ChatPanel.ChatPanelState.SetInput | frontend/src/components/ChatPanel.tsx:191 | Typing stores the input. |
| ChatPanel.ChatPanelState.BeginSend | frontend/src/components/ChatPanel.tsx:39-56 | Blank input or loading changes nothing. Without a session only the no-session error is set. Otherwise the trimmed user message is appended, the input cleared, the error nulled, loading turned on, and the query returned. |
| ChatPanel.ChatPanelState.FinishSend | frontend/src/components/ChatPanel.tsx:58-70 | On success the assistant reply is appended after the user message. On failure the error is set. Loading ends either way. |
| ChatPanel.ChatPanelState.HandleKeyDown | frontend/src/components/ChatPanel.tsx:73-78 | Enter without Shift acts as the send button: blank input or a request in flight changes nothing; with no session only the error is set; otherwise the trimmed input is appended as the user's message and returned as the query, the input and error are cleared and loading begins. Any other key, including Shift+Enter, changes nothing. |
| Strings.NatToStringRoundTrip | backend/services/chat_bot.py:38 | Rendering a score in decimal and reading the digits back gives the score. |

## Left out

- Language-model clients (OpenAI, Groq, Keywords AI), Deepgram and the Supabase client are not modelled. Each call is a parameter returning `Option`, `None` when it raises. JSON decoding is a parameter too. The prompt templates' wording is not modelled: the persona and guidelines are short stand-in constants, and only the parts whose content the source tests are spelled out.
- Decoded JSON values are assumed to have the expected type: an int for the scores, a string for the reasoning, question and labels. A reply whose values have other types is not modelled. The `KeyError` paths for a chunk without "speaker" or "text" are not modelled either.
- In the scam detector, fences are stripped only when the reply contains "```json", as the code does at backend/services/scam_detector.py:70-72. A reply with a bare "```" fence is parsed as is.
- The alert sender (backend/services/alert_sender.py) is a parameter that returns whether the alert went out. The keyword `caller_phone_number` that workflow.py:102-108 passes is not accepted by `send_scam_alert`, so the real call raises `TypeError`. The model describes the evident intent instead: the sender receives the number.
- Workflow.AlertNodeStep: `should_report` in the source can be "" or None (falsy) rather than False. The model reads the flag as its truthiness.
- Workflow.ProcessChunk: both `time.time()` readings of a run are the one parameter `now`. The graph-object cache is not modelled.
- The database is a map from phone number to report count, and `dbFails` stands for any exception. `last_reported_at` timestamps are not modelled.
- SuspiciousNumbers.ReportAllCounts: reports are modelled as atomic and sequential. The source reads the count and writes `count + 1` in two separate requests (backend/services/supabase_client.py:51-63), so two concurrent reports of one number can lose one increment; the model does not capture that.
- The concurrent receive and send tasks of the wake-word router, and their cancellation, are modelled as two methods on the shared `detected` flag, not as interleavings. The audio bytes are forwarded opaquely.
- TranscriptProcessors.TranscriptProcessor.ProcessBuffer takes the speaker identifier as a function parameter that must return validly labelled segments. `SpeakerIdentifier.Identify` has that property.
- Only ASCII whitespace is modelled: blank and code points 9-13, plus 28-31 for Python. Python's `strip`/`split` and JavaScript's `trim`/`\s` also treat Unicode spaces such as U+00A0, U+2028 and U+3000 as whitespace, and JavaScript adds U+FEFF. The model treats those as ordinary characters; for example it rejects "123\u00A0456 7890" as a phone number, which the component accepts. Case mapping is ASCII only, and Unicode normalisation is not modelled.
- React state updates are modelled as immediate assignments; batching and asynchronous `setState` are not. Timers are discrete events: `RestartTimerFires` runs one pending restart. The model follows the hook's code, not its comment at frontend/src/hooks/useWakeWord.ts:172 ("haven't activated"): `OnResult` does not clear the wish to listen, so after an activation `OnEnd` still schedules a restart and a later result can activate again. The SpeechRecognition API is reduced to counters of start and stop calls. The startup chime, animations and rendering are not modelled.
- ChatPanel.ChatPanelState.BeginSend and FinishSend split `handleSend` at its `await`. The network call in between is the `Outcome` parameter, and message ids taken from `Date.now()` are not modelled.
- Analytics: dates, `toLocaleDateString`, `getDay()` and day differences are parameters. The day key and the weekday name are independent parameters of `DailyChartData`: the source takes the key from `toISOString()`, a UTC date, and the name from `getDay()`, a local weekday (frontend/src/pages/Analytics.tsx:63-64), so near midnight they can name different days; the model does not tie them together. Durations are whole seconds; fractional input and NaN are not modelled. The safe-rate `Math.round` percentage is floating point and left out. A negative day difference renders "-n days ago", as the source does.
- HTTP routers, authentication, the remaining UI pages and the live-model test scripts are not part of this model.
