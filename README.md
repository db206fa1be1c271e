# Mitrasetu chat relay, modelled in Dafny

Mitrasetu is a mental-health companion web app. This project models the path that a chat message takes:

- **Chat page (`AIAssistant.jsx`).** It keeps a list of chat sessions in the browser's `localStorage` and adds the user's message to the conversation.
- **Token cache (`backendAuth.js`).** It obtains a guest token for the backend, or reuses a cached one.
- **Relay handler (`chatController.js`, `POST /api/chat`).** It validates the message, stores it encrypted and asks the Bedrock adapter for a reply. It answers the client, then saves the encrypted reply in the background.
- **Bedrock adapter (`bedrockClient.js`).** It turns one message into one Amazon Bedrock Converse request and turns the provider's answer into one reply string.

The modules:

| file | module | what it holds |
|---|---|---|
| `wrappers.dfy` | `Wrappers` | `Option` (missing value) and `Result` (value or thrown error's message) |
| `strings.dfy` | `Strings` | the JavaScript string built-ins the code relies on: `trim`, `join`, `slice(0, n)`, `String(n)` for integers and `parseInt(s, 10)` |
| `bedrock_client.dfy` | `BedrockClient` | the request envelope, the reply extraction and `sendTextMessageToNova` |
| `chat_controller.dfy` | `ChatController` | `exports.sendMessage` as a method returning the trace of what it does, proved equal to a specification function whose properties are lemmas |
| `backend_auth.dfy` | `BackendAuth` | the class `TokenCache` over the two storage keys, with `getBackendToken` and `clearBackendToken` |
| `ai_assistant.dfy` | `AIAssistant` | the class `Assistant` over the three storage keys and the component state, one method per effect, tick or handler |

Collaborators the code cannot see are parameters (the conversation context is the one exception, see "## Left out"):
- the clock;
- what `fetch` and `response.json()` produced;
- the outcome of `bedrockClient.send`;
- the encryption function;
- the outcome of the awaited `userMessage.save()`.

The backend's error values are the messages of the `Error`s it throws.

Some behaviours of the code are easy to misread; the model follows the code:
- **The 500 body.** The comment in the `catch` block speaks of a more detailed error in development and a generic one in production, but that applies only to `error`. The body always carries `details: err.message`, in every mode. `error` carries the message only when `NODE_ENV` is exactly `development` and the message is non-empty. In every other mode it is `Server error`.
- **Malformed model answers.** The adapter throws this error inside its `try`, so the caller sees it wrapped as `Bedrock API call failed: Bedrock: empty or malformed response from model`. It is not a separate kind of error.
- **Cache writes.** An expired or missing cache entry leads to one guest-login request. The cache is overwritten only when a token arrives; a failed request leaves it as it was.
- **Bot-record encryption failure.** The 200 has already been sent when `encrypt(botResponse)` runs. If it throws, the `catch` tries to send a second answer, a 500. The trace records both attempts. The client receives the first one (`ClientStatus`).

## Model

| member | source | states |
|---|---|---|
| Strings.Trim | backend/utils/bedrockClient.js:36-40 | `trim` gives the empty string exactly when the input is all JavaScript whitespace, and otherwise a string that neither starts nor ends with whitespace |
| Strings.TrimIsCore | backend/utils/bedrockClient.js:40 | reference definition of `trim`: the part between a whitespace prefix and a whitespace suffix, when it neither starts nor ends with whitespace, is the trimmed string |
| Strings.TrimIdempotent | backend/utils/bedrockClient.js:80 | trimming an already trimmed string changes nothing |
| Strings.JoinAllSpace | backend/utils/bedrockClient.js:80 | joining with a whitespace separator gives an all-whitespace string exactly when every part is all whitespace |
| Strings.Join | backend/utils/bedrockClient.js:80 | `join`: no parts give the empty string, and the joined string starts with the first part |
| Strings.JoinAppend | backend/controllers/chatController.js:28-33 | the parts appear in order: one more part adds the separator and then that part at the end |
| Strings.Take | react_frontend/src/components/AIAssistant.jsx:48 | `slice(0, n)` is a prefix of the string whose length is the smaller of `n` and the string's length |
| Strings.DecimalString | react_frontend/src/utils/backendAuth.js:44 | `String(n)` for an integer: its decimal digits with no leading zero (just `0` for zero), after a `-` when negative |
| Strings.ParseInt | react_frontend/src/utils/backendAuth.js:18 | `parseInt(s, 10)`: leading whitespace is skipped, then one optional sign, then the longest run of digits; no digits gives `NaN` (`None`) |
| Strings.ParseIntOfDecimal | react_frontend/src/utils/backendAuth.js:18 | `parseInt(String(n), 10)` reads back `n` for every integer, negative ones included |
| BedrockClient.ModelId | backend/utils/bedrockClient.js:12-14 | the model id is `BEDROCK_MODEL_ID` when set and non-empty, else `amazon.nova-pro-v1:0`; never empty |
| BedrockClient.TextParts | backend/utils/bedrockClient.js:76-78 | the filter keeps at most as many parts as blocks, and every kept part is non-empty |
| BedrockClient.TextPartsAppend | backend/utils/bedrockClient.js:76-78 | parts keep the provider's order: the parts of a concatenation are the parts of each side in turn |
| BedrockClient.TextPartsOfBlock | backend/utils/bedrockClient.js:77 | a block contributes its text exactly when it has a non-empty string `text` |
| BedrockClient.ExtractReply | backend/utils/bedrockClient.js:71-80 | a missing output message or non-array content, and nothing else, is malformed; otherwise the reply is the parts joined with newlines and trimmed |
| BedrockClient.NoTextGivesEmptyReply | backend/utils/bedrockClient.js:72-80 | a well-formed answer without text blocks, an empty content array included, gives the empty reply rather than an error |
| BedrockClient.EmptyReplyIffBlankParts | backend/utils/bedrockClient.js:76-80 | the reply is empty exactly when every text part is whitespace only |
| BedrockClient.ReplyIsTrimmed | backend/utils/bedrockClient.js:80 | the reply never starts or ends with whitespace |
| BedrockClient.HelloThereExample | backend/utils/bedrockClient.js:76-80 | blocks "Hello", "" and "there" give "Hello\nthere" |
| BedrockClient.CallOutcome | backend/utils/bedrockClient.js:68-91 | fails exactly on a rejected call or a malformed answer, always with the `Bedrock API call failed: ` prefix followed by the original message; otherwise yields the extracted reply |
| BedrockClient.Envelope | backend/utils/bedrockClient.js:40-64 | one user message whose single block is the trimmed text; the trimmed system prompt in `system` exactly when it is not blank; omitted sampling parameters take 512, 0.7 and 0.9 |
| BedrockClient.SendTextMessageToNova | backend/utils/bedrockClient.js:29-92 | a blank message is refused before anything is sent, with the unwrapped `Bedrock: message is required`; otherwise exactly one request (no retry) and the call's outcome |
| ChatController.ErrorBodyFor | backend/controllers/chatController.js:57-60 | `details` is always the error message; `error` is never empty, is `Server error` outside development, and is the message in development when it is non-empty |
| ChatController.SystemPromptEnds | backend/controllers/chatController.js:28-33 | the joined persona prompt is non-empty and ends with a full stop |
| ChatController.SystemPromptIsNotBlank | backend/controllers/chatController.js:28-33 | the persona prompt is not blank, so the adapter always sends it |
| ChatController.ModelParams | backend/controllers/chatController.js:35-41 | the arguments the handler gives the adapter: the message as received, the persona prompt, 512, 0.7 and 0.9 |
| ChatController.Effects | backend/controllers/chatController.js:11-61 | the handler's steps in order, for each outcome of encryption, the user save, the model call and the reply's encryption |
| ChatController.Requests | backend/controllers/chatController.js:35-41 | the requests that reach Bedrock: the envelope of the message once the user's record is saved, otherwise none |
| ChatController.SendMessage | backend/controllers/chatController.js:11-62 | the handler's effects are exactly `Effects` of its inputs with the adapter's outcome, and what reaches Bedrock is exactly `Requests` |
| ChatController.ClientStatusCases | backend/controllers/chatController.js:14-60 | every request whose `message` is a string or missing is answered: 400 exactly for a blank message, 200 exactly when the model replied after the user's record was saved, 500 otherwise |
| ChatController.BlankMessageRefused | backend/controllers/chatController.js:14-16 | a blank message gets exactly the 400 `Message is required`: no record is written and nothing reaches Bedrock |
| ChatController.UserRecordSavedFirst | backend/controllers/chatController.js:20-25 | for a message that is not blank, the first step is the awaited save of the record owned by the user, marked as the user's and holding the encrypted message |
| ChatController.ModelOnlyAfterUserSave | backend/controllers/chatController.js:20-41 | the model is invoked only right after the awaited save of the record owned by the user, marked as the user's and holding the encryption of the message given to the model |
| ChatController.OneRequestPerModelCall | backend/controllers/chatController.js:35-41 | at most one request reaches Bedrock, and one does exactly when the model is invoked |
| ChatController.BotSavedAfterReply | backend/controllers/chatController.js:44-53 | the bot's record is saved only after the 200 was sent |
| ChatController.FailedSaveStops | backend/controllers/chatController.js:18-61 | a failed user save sends nothing to Bedrock and answers 500 with the save error as `details` |
| ChatController.ModelGetsMessageAsReceived | backend/controllers/chatController.js:35-41 | the model is given the message exactly as received, untrimmed |
| ChatController.ModelRequest | backend/controllers/chatController.js:28-41 | the one request has the configured model id (never empty), the trimmed message, the trimmed persona prompt in `system`, and maxTokens 512, temperature 0.7 and topP 0.9 |
| ChatController.SuccessfulReply | backend/controllers/chatController.js:44-53 | on a model reply the client gets `{reply, model}` with the configured model id (`BEDROCK_MODEL_ID` or the Nova Pro default); then the encrypted reply is saved in the background, or a second answer is attempted when that encryption fails |
| BackendAuth.GuestToken | react_frontend/src/utils/backendAuth.js:23-40 | a token is obtained exactly on an ok status with a parsed body holding a non-empty token; otherwise the error is the rejected `fetch`'s message, `Failed to get backend token: <status>`, the message of `response.json()`'s rejection when an ok body does not parse, or `No token in backend response` |
| BackendAuth.Fresh | react_frontend/src/utils/backendAuth.js:18 | the cache test: both keys hold non-empty strings and the clock is strictly before the expiry read with `parseInt` (a `NaN` expiry is never fresh) |
| BackendAuth.TokenOutcome | react_frontend/src/utils/backendAuth.js:15-20 | the answer is the cached token when it is fresh, otherwise the guest login's outcome; a token answered is never empty |
| BackendAuth.RefreshedCacheWindow | react_frontend/src/utils/backendAuth.js:42-44 | a token stored at time t is reused exactly while the clock is before t plus 50 minutes |
| BackendAuth.ExpiresAtDeadline | react_frontend/src/utils/backendAuth.js:18 | at the stored deadline the token is stale; one millisecond before, it is reused |
| BackendAuth.TokenCache.GetBackendToken | react_frontend/src/utils/backendAuth.js:13-51 | a hit answers the cached token with no request and no change; a miss makes exactly one request; its token is stored with expiry `String(now + 3000000)`, and a failure leaves the keys as they were |
| BackendAuth.TokenCache.Clear | react_frontend/src/utils/backendAuth.js:56-59 | both keys are removed, so no later call is a hit |
| AIAssistant.NewSessionId | react_frontend/src/components/AIAssistant.jsx:25 | a new session id is `ai-` followed by the clock reading |
| AIAssistant.NewSessionIdsDiffer | react_frontend/src/components/AIAssistant.jsx:156 | ids made at different moments differ, and equal ids come from the same moment |
| AIAssistant.FirstUser | react_frontend/src/components/AIAssistant.jsx:48 | `find` gives the index of a user message with no user message before it, or nothing when there is no user message |
| AIAssistant.Title | react_frontend/src/components/AIAssistant.jsx:48 | the title is the first user message's text cut to 40 characters, or `New chat` when there is none or its text is empty; never empty, never longer than 40 |
| AIAssistant.FirstUserAppend | react_frontend/src/components/AIAssistant.jsx:48 | later messages do not change which message is the first user message |
| AIAssistant.TitleStable | react_frontend/src/components/AIAssistant.jsx:48 | once a user message exists, the session title no longer changes as messages are added |
| AIAssistant.WithoutSession | react_frontend/src/components/AIAssistant.jsx:49 | the filter removes exactly the entries with the id |
| AIAssistant.WithoutSessionAppend | react_frontend/src/components/AIAssistant.jsx:49 | the filter keeps the relative order of the remaining entries |
| AIAssistant.WithoutAbsentSession | react_frontend/src/components/AIAssistant.jsx:49 | a list without the id is left as it is |
| AIAssistant.MoveToFront | react_frontend/src/components/AIAssistant.jsx:49 | the new list starts with the session's entry, has no other entry of its id, and otherwise holds exactly the old entries of other ids |
| AIAssistant.MoveToFrontKeepsOthers | react_frontend/src/components/AIAssistant.jsx:49 | after the first entry come exactly the other sessions, in their old order |
| AIAssistant.MoveToFrontTwice | react_frontend/src/components/AIAssistant.jsx:47-50 | persisting the same session again only replaces its entry |
| AIAssistant.AiMessage | react_frontend/src/components/AIAssistant.jsx:82-126 | the added message is from `ai` and never empty; it is the backend's `reply`, tagged with `model` or the default model id, exactly when a token was obtained and an ok, parsable reply has a non-empty `reply`; otherwise it is the fixed fallback text |
| AIAssistant.FallbackIffNoAnswer | react_frontend/src/components/AIAssistant.jsx:107-125 | the fallback is told from a model reply by the absence of `model` |
| AIAssistant.Exchange | react_frontend/src/components/AIAssistant.jsx:82-126 | the chat request goes out with the token and the untrimmed input exactly when a token was obtained; the message to add is `AiMessage`; the cache changes as `getBackendToken` changes it |
| AIAssistant.Assistant.constructor | react_frontend/src/components/AIAssistant.jsx:18 | the component's session id starts as the stored current id |
| AIAssistant.Assistant.EnsureSession | react_frontend/src/components/AIAssistant.jsx:22-37 | with no current id, stores `ai-<now>` and puts a `New chat` entry in front of the list, throwing after the id write when the list is not JSON; with one, changes neither; then shows the session's stored messages when there are some |
| AIAssistant.Assistant.Persist | react_frontend/src/components/AIAssistant.jsx:43-52 | nothing without a session id; otherwise stores the conversation under it and moves its titled entry to the front, stopping after the first write when the list is not JSON |
| AIAssistant.Assistant.NewChat | react_frontend/src/components/AIAssistant.jsx:155-162 | makes `ai-<now>` current, puts a `New chat` entry in front of the whole list without removing anything, and empties the conversation |
| AIAssistant.Assistant.SwitchTick | react_frontend/src/components/AIAssistant.jsx:57-63 | when the stored current id is set and differs from the component's, switches to it and shows its stored messages, or none when missing or unparsable |
| AIAssistant.Assistant.SendMessage | react_frontend/src/components/AIAssistant.jsx:74-129 | blank input changes nothing; otherwise exactly the untrimmed user message and then one `AiMessage` are appended, the input is cleared and loading ends |

## Left out

- Strings are sequences of Unicode scalar values, not UTF-16 code units. `slice(0, 40)` can therefore differ from the model on text outside the Basic Multilingual Plane.
- `String(n)` is modelled for integers written out digit by digit. JavaScript switches to exponent notation from 10^21 on, far beyond any clock value.
- JSON is not modelled as text. A storage key holds a typed value, nothing, or something that does not parse (`Slot`). JSON that parses to a value of another shape is not modelled. A guest-login `token`, a chat `reply` or `model`, or a stored message's `text` that is not a string is also not modelled. (The Bedrock blocks' `text` is different: a non-string `text` there is modelled, as a block the filter drops.)
- The AWS SDK client, `fetch`, `response.json()`, the encryption utility and the Mongoose `Chat` model are parameters. Their outcomes are passed in, not computed.
- ChatController.SendMessage: the background `botMessage.save()` is only recorded as started. Its outcome, its race with later requests and the unhandled rejection when it fails are concurrency and are not modelled. The rejection of the second answer after the 200 is also left out.
- The `req.user` authentication middleware and `req.user.id` are not part of this model; the user id is a parameter.
- The numeric meaning of `temperature` and `topP` is left out; they are passed-through real numbers.
- The environment variables `BEDROCK_MODEL_ID` and `NODE_ENV` are parameters (`ServerConfig`). The model id in requests and replies is `BedrockClient.ModelId` of the first.
- The AWS region (`AWS_REGION`, `BEDROCK_REGION`, default `us-east-1`) is left out. It only selects the SDK client's endpoint and appears in a log line.
- A `message` that is present but not a string is left out; the model's message is a string or missing. A falsy one (`0`, `false`, `null`) fails the `!message` test and gets the 400 `Message is required`, like a missing message. A truthy one (a non-zero number, an array, an object, `true`) reaches `message.trim()`, which throws a `TypeError` before the `try` block, so the handler sends neither a 400 nor a 500.
- Logging through `console` is left out.
- `toLocaleTimeString()` stamps are parameters.
- In `ensureSession` and the New handler, the two `Date.now()` reads are taken as one instant.
- React scheduling, the 600 ms polling interval, the auto-scroll effect and the JSX are left out. Each effect, tick or handler is one method run to completion.
- `getBackendToken` callers racing one another is concurrency and is left out. Each call runs to completion.
- AIAssistant.Assistant.SendMessage: the `console.log` of the reply is left out.
- `ConversationContext` is not part of this model. Its `addMessage` is taken to append one message to the current conversation, and its `setConversation` to replace the conversation. The two appends of `sendMessage` (the user's message, then the answer) rely on this: the model does not capture a context whose `addMessage` works from a stale copy of the conversation and overwrites an earlier append.
