# Spoken-dialogue turn manager: a Dafny model

This project models the core of a voice dialogue system in which a human
talks with a language model. The core is the turn-taking state machine in
`Code/recap/src/dm.ts`. It sequences speech recognition, a contradiction
check of the latest user turns, a chat completion and speech synthesis.
The model also covers the data types of `Code/recap/src/types.ts` and the
request-splitting logic of the contradiction server in
`Code/rgm_inference.py`.

The files are:

- `wrappers.dfy`: `Option` and `Result`.
- `types.dfy` (module `DmTypes`): messages and roles, the two verdicts and
  their wire spellings, the dialogue context, the classifier request and
  reply, the model-catalog entries and the events the machine receives.
- `requests.dfy` (module `Requests`): the pure parts of `dm.ts`. These are
  the history updates of the `assign` actions, JavaScript's `trim`, the
  period rule, the classifier request builder, the classifier adapter's
  reply check, the chat request builder and the Speaking guard.
- `machine.dfy` (module `Machine`): the states (Main is a compound state),
  the commands the entry actions issue, one event step as a function
  `Step`, the invariant of every reachable configuration, and the running
  actor as the class `DialogueManager`, whose `Handle` method applies
  `Step` to its `state` and `ctx` fields.
- `inference.dfy` (module `Inference`): the server's split of a request
  into a (context, response) pair with Python's indexing and `join`, and
  the class-to-label mapping. The neural classifier is a function
  parameter.
- `protocol.dfy` (module `Protocol`): what the server makes of the
  client's request, what the client makes of the server's answer, and one
  complete first turn driven through `DialogueManager`.

Services and the speech subsystem are not called. Each entry action
returns a `Command` (PREPARE, LISTEN, SPEAK, or a call to one of the three
services). Each service's outcome comes back as an event:
`ModelsReplied`/`ModelsFailed`, `ClassifierReplied`/`ClassifierFailed` and
`ChatReplied`/`ChatFailed`. `ClassifierReplied` carries the parsed reply
body. The adapter's check (dm.ts lines 66-69) runs on it, so an invalid
body behaves exactly like a failed call.

Four behaviours of the code, modelled as written:

- The chat reply's `message.content` is appended as the assistant turn
  as it arrives; nothing about the reply is checked (dm.ts lines 218-225).
- The chat-completion and model-catalog invocations have no `onError`
  transition. On failure the machine stays where it is, with its context
  unchanged.
- A failed or rejected classification keeps the previous verdict
  (dm.ts lines 196-199).
- The system note reads "Note: The last user message is classified as
  <verdict>." with a capital T (dm.ts line 211).

## Model

| member | source | states |
|---|---|---|
| DmTypes.Label | Code/recap/src/types.ts:30-32 | a verdict's wire spelling is "contradiction" or "no_contradiction" |
| DmTypes.ParseVerdict | Code/recap/src/types.ts:30-32 | a string is read as a verdict exactly when it is one of the two spellings, and that verdict's spelling is the string |
| DmTypes.ParseLabel | Code/recap/src/types.ts:30-32 | the two verdict spellings are distinct and read back as the same verdict |
| Requests.PrependPrompt | Code/recap/src/dm.ts:118-126 | the greeting system message comes first, then the old history in order, one longer |
| Requests.AppendUser | Code/recap/src/dm.ts:147-163 | the user turn is added at the end and the old history is an unchanged prefix |
| Requests.AppendAssistant | Code/recap/src/dm.ts:218-225 | the assistant turn is added at the end and the old history is an unchanged prefix |
| Requests.IsWhiteSpace | Code/recap/src/dm.ts:175 | the characters `trim` removes: the ECMAScript WhiteSpace and LineTerminator code points (section 12.2 and 12.3 of ECMA-262) |
| Requests.TrimStart | Code/recap/src/dm.ts:175 | the result is a suffix; everything removed is white space; it does not start with white space |
| Requests.TrimEnd | Code/recap/src/dm.ts:175 | the result is a prefix; everything removed is white space; it does not end with white space |
| Requests.Trim | Code/recap/src/dm.ts:175 | the trimmed text neither starts nor ends with white space |
| Requests.TrimCharacterized | Code/recap/src/dm.ts:175 | the trimmed text is the infix of the input that starts where the leading white space ends |
| Requests.TrimRemovesWhiteSpace | Code/recap/src/dm.ts:175 | everything removed before and after that infix is white space |
| Requests.TrimEmptyIffBlank | Code/recap/src/dm.ts:175 | the trimmed text is empty exactly when the input is all white space |
| Requests.TrimOfTrimmed | Code/recap/src/dm.ts:175 | trimming text with no white space at either end changes nothing |
| Requests.EndsWithPeriod | Code/recap/src/dm.ts:176 | `text.endsWith('.')`: the text is non-empty and its last character is '.' |
| Requests.EnsurePeriod | Code/recap/src/dm.ts:176 | the result ends with a period; it is the input exactly when the input already ends with one, otherwise the input plus "." |
| Requests.Normalize | Code/recap/src/dm.ts:174-177 | every utterance sent ends with a period |
| Requests.NormalizeBlank | Code/recap/src/dm.ts:155-161 | an empty or blank user turn (ASR_NOINPUT's "") becomes "." |
| Requests.NormalizeAddsPeriod | Code/recap/src/dm.ts:175-176 | text without white space at either end and without a final period gains exactly one "." |
| Requests.NormalizeKeepsPunctuated | Code/recap/src/dm.ts:175-176 | trimmed text ending in a period is sent unchanged |
| Requests.NormalizeIdempotent | Code/recap/src/dm.ts:174-177 | normalizing an utterance twice is the same as once |
| Requests.UserMessages | Code/recap/src/dm.ts:171 | the filter keeps only user messages and never grows the list |
| Requests.UserMessagesAppend | Code/recap/src/dm.ts:171 | filtering distributes over concatenation, so history order is kept |
| Requests.UserMessagesSingle | Code/recap/src/dm.ts:171 | a single message is kept exactly when it is a user message |
| Requests.LastTwo | Code/recap/src/dm.ts:172 | `slice(-2)` is the suffix of length min(2, n) |
| Requests.Utterances | Code/recap/src/dm.ts:174-177 | one normalized utterance per selected turn, in order |
| Requests.BuildContradictionInput | Code/recap/src/dm.ts:170-189 | the utterances are the last min(2, #user turns) user turns, normalized and in history order, each ending in "."; the target pair is [0, n-1] |
| Requests.EmptyRequest | Code/recap/src/dm.ts:170-189 | with no user message the request has no utterance and pair [0, -1] |
| Requests.NoUserTurnRequest | Code/recap/src/dm.ts:170-189 | with no user turn the request is empty with pair [0, -1] |
| Requests.UserTurnAppended | Code/recap/src/dm.ts:147-163 | appending a user turn appends it to the user messages |
| Requests.LastTwoAppend | Code/recap/src/dm.ts:172 | after one more element, `slice(-2)` is that element preceded by the old last one, if any |
| Requests.UtterancesOne | Code/recap/src/dm.ts:174-177 | one turn gives its normalized content |
| Requests.UtterancesTwo | Code/recap/src/dm.ts:174-177 | two turns give their normalized contents in order |
| Requests.SingleUserTurnRequest | Code/recap/src/dm.ts:170-189 | with one user turn the request holds it alone, with pair [0, 0] |
| Requests.TwoUserTurnsRequest | Code/recap/src/dm.ts:170-189 | with two or more user turns the request holds the last two in order, with pair [0, 1] |
| Requests.RequestAfterUserTurn | Code/recap/src/dm.ts:147-189 | after a user turn, the request ends with that turn, preceded by the previous user turn if any |
| Requests.RequestIgnoresOtherRoles | Code/recap/src/dm.ts:171 | the greeting and assistant replies never change the classifier request |
| Requests.ValidateReply | Code/recap/src/dm.ts:66-69 | a reply is accepted exactly when it is truthy and its prediction is exactly "contradiction" or "no_contradiction", and then as that verdict |
| Requests.ValidateLabel | Code/recap/src/dm.ts:66-72 | the reply for a verdict's spelling is accepted as that verdict |
| Requests.SystemNote | Code/recap/src/dm.ts:209-212 | "Note: The last user message is classified as <v>." when a verdict is stored, else "You are a helpful assistant." |
| Requests.SystemNoteInjective | Code/recap/src/dm.ts:209-212 | different stored verdicts (or none) give different notes |
| Requests.ChatRequest | Code/recap/src/dm.ts:206-217 | one system note, then the whole history unchanged; one longer than the history |
| Requests.SpokenReply | Code/recap/src/dm.ts:231-240 | Speaking says something exactly when the last message is the assistant's, and then says its content |
| Requests.SpeaksAppendedReply | Code/recap/src/dm.ts:218-240 | after a chat reply is appended, Speaking says that reply |
| Requests.ModelNames | Code/recap/src/dm.ts:106-109 | the model names in catalog order, one per entry |
| Machine.Inv | Code/recap/src/dm.ts:84-255 | the invariant of every reachable configuration (before Main the initial context; in Main the greeting first; Prompt and SpeakPrompt hold the greeting alone; Speaking follows an assistant turn; Done is never entered); InitialInv and StepPreservesInv prove it reachable-state-wide |
| Machine.Accepts | Code/recap/src/dm.ts:96-241 | the `on:` and invoke `onDone`/`onError` table: which events each state has a transition for; UnhandledIgnored proves every other event is ignored and every listed one has an effect |
| Machine.Enter | Code/recap/src/dm.ts:117-240 | entering a state lands in that state; Prompt's entry prepends the greeting and every other state issues its entry command |
| Machine.Step | Code/recap/src/dm.ts:93-255 | the transition function of the machine; StepPreservesInv, UnhandledIgnored, HistoryGrows, ModelsLoaded, AskRecognised, AskNoInput, AskListenComplete, ClassifierOutcome, ChatReplySpoken and ServiceFailureStaysPut state each of its transitions |
| Machine.EntryCommand | Code/recap/src/dm.ts:95-240 | every state but Prompt and Done issues a command on entry; Speaking issues none only when its guard fails |
| Machine.InitialInv | Code/recap/src/dm.ts:84-92 | the initial configuration satisfies the invariant |
| Machine.StepPreservesInv | Code/recap/src/dm.ts:93-255 | every event keeps the invariant, and Done is never entered |
| Machine.UnhandledIgnored | Code/recap/src/dm.ts:93-255 | an event changes nothing exactly when the current state has no transition for it |
| Machine.ServiceFailureStaysPut | Code/recap/src/dm.ts:100-113 | a failed catalog or chat call leaves state and context unchanged, since neither invoke has an error transition |
| Machine.HistoryGrows | Code/recap/src/dm.ts:118-225 | the history never shrinks: the old history is a prefix of the new one, at most one message shorter |
| Machine.ModelsLoaded | Code/recap/src/dm.ts:100-126 | the catalog reply stores the names and enters Prompt with the greeting prepended |
| Machine.AskRecognised | Code/recap/src/dm.ts:147-154 | RECOGNISED appends a user turn and stays in Ask without a new LISTEN |
| Machine.AskNoInput | Code/recap/src/dm.ts:155-163 | ASR_NOINPUT appends an empty user turn and asks the classifier about the new history |
| Machine.AskListenComplete | Code/recap/src/dm.ts:144-146 | LISTEN_COMPLETE asks the classifier without changing the history |
| Machine.ClassifierOutcome | Code/recap/src/dm.ts:190-199 | a valid reply stores its verdict, an invalid reply or failure keeps the old one; either way ChatCompletion asks for a completion with the stored verdict |
| Machine.VerdictChangesOnlyOnValidReply | Code/recap/src/dm.ts:190-195 | the stored verdict changes only on a valid classifier reply, to that reply's verdict |
| Machine.ChatReplySpoken | Code/recap/src/dm.ts:218-240 | a chat reply is appended as the assistant's turn, the machine enters Speaking and says it |
| Machine.SpeakingAlwaysSpeaks | Code/recap/src/dm.ts:231-240 | in every reachable Speaking state the guard holds and the last message is said |
| Machine.Run | Code/recap/src/dm.ts:257 | a sequence of events keeps the invariant |
| Machine.RunHistoryGrows | Code/recap/src/dm.ts:118-225 | over any run the old history stays a prefix, growing by at most one message per event |
| Machine.DialogueManager.constructor | Code/recap/src/dm.ts:84-92 | the actor starts in Prepare with an empty history, no models and no verdict |
| Machine.DialogueManager.Start | Code/recap/src/dm.ts:92-95 | starting the actor sends PREPARE |
| Machine.DialogueManager.Handle | Code/recap/src/dm.ts:93-255 | one event moves the actor as `Step` says, keeps the invariant and never shrinks the history |
| Inference.PyIndex | Code/rgm_inference.py:14 | Python indexing: negative indices count from the end, anything outside raises |
| Inference.ExceptAt | Code/rgm_inference.py:13 | the list comprehension that skips index `target_idx`; never longer than its input, and ExceptAtSlices gives its exact result |
| Inference.Join | Code/rgm_inference.py:13 | `" ".join(parts)`: the empty list joins to ""; JoinSmall gives the one- and two-part cases |
| Inference.ExceptAtSlices | Code/rgm_inference.py:13 | the comprehension drops exactly the element at a valid index and keeps everything for any other index |
| Inference.JoinSmall | Code/rgm_inference.py:13 | joining one part gives it back; two parts are separated once |
| Inference.SplitDialog | Code/rgm_inference.py:12-14 | a missing pair raises a KeyError and a pair that is not two long a ValueError; a two-element pair succeeds exactly when its second index is in Python range and otherwise raises an IndexError; on success the response is the utterance at that index and the context the single-space join of all the others, in order |
| Inference.SplitTwo | Code/rgm_inference.py:12-14 | two utterances with target 1 give context = first and response = second |
| Inference.SplitOne | Code/rgm_inference.py:12-14 | one utterance with target 0 gives an empty context and that utterance as response |
| Inference.SplitNone | Code/rgm_inference.py:14 | no utterance with target -1 raises an IndexError |
| Inference.ContextIndexIgnored | Code/rgm_inference.py:12-13 | the first element of the pair does not affect the split |
| Inference.ClassLabel | Code/rgm_inference.py:21 | "contradiction" exactly for class 1, otherwise "no_contradiction" |
| Inference.PredictContradiction | Code/rgm_inference.py:11-21 | succeeds exactly when the split does, with the label of the class predicted for that split |
| Protocol.RequestSplit | Code/rgm_inference.py:12-14 | the client's request splits into (second-to-last, last) normalized user turns with two or more turns, ("", only turn) with one, and raises an IndexError with none |
| Protocol.SplitOfTwoTurns | Code/rgm_inference.py:12-14 | with two or more user turns the last two normalized turns are (context, response) |
| Protocol.SplitOfOneTurn | Code/rgm_inference.py:12-14 | with one user turn the context is empty and the normalized turn is the response |
| Protocol.SplitOfNoTurn | Code/rgm_inference.py:14 | with no user turn the server raises an IndexError |
| Protocol.ServerLabelAccepted | Code/rgm_inference.py:21 | every label the server returns passes the client's check, as the matching verdict |
| Protocol.ServerAnswer | Code/api/app.py:21-24 | the client receives a reply exactly when the split succeeds, and that reply is `{"prediction": label}` with the server function's label; it receives a failure exactly when the server raises |
| Protocol.LabelStored | Code/recap/src/dm.ts:190-195 | a server label delivered to CheckContradiction is stored as the matching verdict |
| Protocol.AnswerStored | Code/recap/src/dm.ts:190-199 | for any request, the stored verdict becomes the classifier's verdict on the server's split when it succeeds, and stays when the server raises |
| Protocol.ClassificationRoundTrip | Code/recap/src/dm.ts:167-201 | with at least one user turn, the stored verdict is the classifier's verdict on the server's split of the latest user turns; with none the old verdict stays |
| Protocol.SunnyNormalized | Code/recap/src/dm.ts:174-177 | "it is sunny" is sent as "it is sunny." |
| Protocol.SunnyRequest | Code/recap/src/dm.ts:170-189 | after the greeting and "it is sunny" the request is ["it is sunny."] with pair [0, 0] |
| Protocol.SunnyChatRequest | Code/recap/src/dm.ts:206-217 | with no_contradiction stored, the chat request is the note "Note: The last user message is classified as no_contradiction.", the greeting and the user turn |
| Protocol.FirstUserTurn | Code/recap/src/dm.ts:171 | after the greeting and one user turn, that turn is the only user message |
| Protocol.FirstRequest | Code/recap/src/dm.ts:170-189 | the request after the first user turn is that turn alone, normalized, with pair [0, 0] |
| Protocol.Opening | Code/recap/src/dm.ts:92-142 | a fresh actor sends PREPARE, calls the catalog, enters Prompt, says "Hello!" on a click and listens, with the greeting alone in the history |
| Protocol.UserSpeaks | Code/recap/src/dm.ts:141-189 | a recognised utterance is appended and the end of listening asks the classifier about the new history |
| Protocol.SystemAnswers | Code/recap/src/dm.ts:190-242 | a no_contradiction answer is stored, the noted chat request is sent, the reply is appended and said, and the machine listens again |
| Protocol.FirstTurn | Code/recap/src/dm.ts:92-242 | a complete first turn issues PREPARE, the catalog call, SPEAK "Hello!", LISTEN, the classifier request for the history, the noted chat request, SPEAK of the reply and LISTEN, and leaves greeting, user turn and reply in the history |

## Left out

- The speech subsystem (speechstate) and its Azure settings and credentials are not modelled. Its sends are the `Command` values and its callbacks are events.
- The three `fetch` calls, HTTP, JSON parsing and the endpoints are not modelled. A service outcome is an event carrying the parsed payload, or a failure event.
- Console logging is output only and is not modelled.
- Actor creation, `subscribe` and the button wiring are not modelled. Only the `CLICK` event they deliver is kept.
- `spstRef`, `informationState` and `lastResult` are left out of `Context`. The first is the speech actor handle; the other two are set at start and never read.
- `lastContradiction`: null and absent are one value, `None`. Both are falsy at the only place the field is read.
- RECOGNISED carries only the top hypothesis's utterance. The machine reads `value[0].utterance` and nothing else of the hypothesis list.
- The classifier reply is reduced to what the check reads: a falsy body, or a truthy body whose `prediction` is a string or not. Non-string predictions fall in the second case.
- The chat reply event carries the string `message.content` only. A reply with no `message` object makes the `assign` action at dm.ts line 223 throw; that case is not modelled.
- A reply whose `message` has no `content` is not modelled. The code appends an assistant turn whose content is `undefined`, and Speaking then sends that value as the utterance (dm.ts line 237).
- Model loading, tokenization, the forward pass and `argmax` on the server are a foreign library with floating point. The predicted class is the result of an abstract `classify` function.
- `Code/api/app.py` is not part of this model beyond `Protocol.ServerAnswer`. It is the HTTP wrapper that returns `{"prediction": result}` or an error response.
- The environment must deliver each service outcome once. A second outcome for a call that already settled is not excluded by the model.
