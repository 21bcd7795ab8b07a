# ZeroCode chat front end — a verified model of its session logic

ZeroCode Chat is a single-page React application: a chat window talking to a
mock assistant, and a sign-in / sign-up page backed by a mock authentication
hook. This project models the parts of it that hold logic rather than markup:

- **The chat session** of `useChat` (`chat.dfy`, class `Chat.ChatSession`):
  - the message log, the loading flag, the recall buffer of submitted inputs
    (capped at 50) and its cursor;
  - the local-storage entry `zerocode_chat_history`;
  - the operations `sendMessage`, `clearChat` and `getHistoryItem`, and
    hydration from storage.
- **The mock assistant** `getBotResponse` (`bot_replies.dfy`): the
  case-insensitive first-match lookup over six trigger phrases, and the
  fallback made of one of eight templates plus a sentence that quotes the
  input.
- **The mock authentication session** of `useAuth` (`auth.dfy`, class
  `Auth.AuthSession`): `login`, `register`, `logout`, the `zerocode_auth`
  storage entry, and hydration, including the path that drops a stored value
  which does not parse.
- **The sign-in / sign-up form** `AuthForm` (`auth_form.dfy`, class
  `AuthFormModel.AuthForm`): the per-field error map of `validateForm`, the
  outcome handling of `handleSubmit`, and the field and error update of
  `handleChange`.
- **Shared definitions:**
  - `types.dfy` holds the records of `src/types/index.ts`.
  - `text.dfy` holds the JavaScript string built-ins the code relies on:
    - `trim`, using ECMAScript's white-space set;
    - `toLowerCase`;
    - `includes`;
    - `split(c)[0]`;
    - `length` in UTF-16 code units.

Browser storage is a `map<string, Stored>`. Each stored value is one of:

- a message log;
- an authentication record;
- text that does not parse as JSON.

`JSON.parse`/`stringify` are abstracted to these three shapes. React state
updates are modelled as sequential assignments to the fields of one object.

The asynchronous `sendMessage` is split at its `await`:

- `BeginSend` is the synchronous part up to the `await`.
- `SettleReply` handles the two ways the awaited reply can end:
  - `CompleteReply` when the reply arrives;
  - `FailReply` when it throws.
- `SendMessage` runs both halves back to back.

Timestamps and message, user and token identifiers are opaque parameters.
The template index that `Math.random` would choose is a parameter too, so
every possible reply is a value of `BotReplies.Respond`.

`sendMessage` does not check `isLoading`; that guard sits in its caller,
`src/components/chat/ChatInput.tsx:29`, so `Chat.ChatSession.BeginSend`
starts a send whatever the loading flag is.

## Model

| member | source | states |
|---|---|---|
| Text.TrimStartSpec | src/hooks/useChat.ts:80 | trimming the front removes exactly the longest all-white-space prefix, and the rest starts with a non-space or is empty |
| Text.TrimEndSpec | src/hooks/useChat.ts:84 | trimming the back removes exactly the longest all-white-space suffix, and the rest ends with a non-space or is empty |
| Text.TrimSpec | src/hooks/useChat.ts:80-84 | `content.trim()` is a slice of the input that neither starts nor ends with white space, and it is empty exactly when the input is all white space (the blank-input guard) |
| Text.ToLowerSpec | src/hooks/useChat.ts:68 | lower-casing keeps the length and maps each character on its own |
| Text.BeforeFirstSpec | src/hooks/useAuth.ts:36 | `split('@')[0]` is a prefix without the separator, and the character after it, if any, is the separator |
| Text.Utf16LengthSpec | src/components/auth/AuthForm.tsx:33 | the JavaScript length is at least the number of characters, and equal to it when no character lies outside the Basic Multilingual Plane |
| BotReplies.FirstMatch | src/hooks/useChat.ts:69-73 | the loop over the trigger table returns the first rule whose trigger occurs in the text, and returns none only when no trigger occurs |
| BotReplies.RespondFirstTrigger | src/hooks/useChat.ts:59-73 | when the lower-cased input contains a trigger, the reply is the canned reply of the first such trigger in table order, whatever the random pick |
| BotReplies.RespondFallback | src/hooks/useChat.ts:75-76 | when no trigger occurs, the reply is the picked template followed by the sentence quoting the untrimmed input |
| BotReplies.RespondIsCannedOrTemplate | src/hooks/useChat.ts:48-76 | every reply is one of the six canned replies or the picked template with the quoting sentence |
| BotReplies.HelloGetsGreeting | src/hooks/useChat.ts:60-70 | "hello" is answered with the greeting, and so is "Hello": matching ignores case |
| BotReplies.ThisMatchesHi | src/hooks/useChat.ts:61 | triggers match as substrings, not words: "this" contains "hi" and gets the welcome |
| BotReplies.NoTriggerInXyz123 | src/hooks/useChat.ts:59-66 | no trigger phrase occurs in "xyz123" |
| BotReplies.UnmatchedGetsTemplate | src/hooks/useChat.ts:75-76 | "xyz123" gets the picked template followed by the sentence quoting it |
| Chat.PushHistory | src/hooks/useChat.ts:93 | the new recall buffer has the raw input in front, then the previous entries in order, and holds at most 50 entries: one more than before, or exactly 50 once full |
| Chat.MoveCursor | src/hooks/useChat.ts:137-141 | `up` moves one step towards older entries but stops at the oldest; `down` moves one step towards -1 but not below; a cursor in range stays in range |
| Chat.UpPressesWalkHistory | src/hooks/useChat.ts:136-139 | k presses of `up` from cursor i show entries i+1 to i+k of the recall buffer, in order |
| Chat.RecallWholeHistory | src/hooks/useChat.ts:136-139 | from the not-browsing position, one `up` per entry shows every entry once, newest first; a further press stays on the oldest |
| Chat.ChatSession.constructor | src/hooks/useChat.ts:7-29 | a fresh session is empty and not browsing; a stored message log under the chat key becomes the log, and anything else there leaves the log empty and the entry in place |
| Chat.ChatSession.BeginSend | src/hooks/useChat.ts:79-95 | blank input changes nothing and writes nothing; otherwise the trimmed input is appended as one user message after the unchanged earlier ones, loading starts, the raw input is pushed on the recall buffer and the cursor resets to -1; storage is untouched |
| Chat.ChatSession.CompleteReply | src/hooks/useChat.ts:100-115 | exactly one bot message is appended after the current log, loading ends, and the chat key then holds the whole new log; the recall buffer and cursor are unchanged |
| Chat.ChatSession.FailReply | src/hooks/useChat.ts:116-122 | a failed reply only ends loading: messages, recall buffer, cursor and storage stay as they were |
| Chat.ChatSession.SettleReply | src/hooks/useChat.ts:97-122 | a delivered reply appends the bot's answer to the raw input and saves the log; a failure changes only the loading flag |
| Chat.ChatSession.SendMessage | src/hooks/useChat.ts:79-123 | a whole send: nothing changes on blank input; otherwise the user message and, only when the reply is delivered, the bot message are appended; storage is written only on delivery; loading is off at the end |
| Chat.ChatSession.ClearChat | src/hooks/useChat.ts:125-131 | the log becomes empty and the chat key leaves storage; loading flag, recall buffer and cursor are untouched |
| Chat.ChatSession.GetHistoryItem | src/hooks/useChat.ts:133-145 | the cursor takes one clamped step and the text returned is the entry under it, or the empty string at -1; messages, loading flag and recall buffer are untouched |
| Chat.ReloadAfterReply | src/hooks/useChat.ts:16-29 | after one message and its reply, a session hydrated from the storage left behind holds exactly those two messages |
| Chat.ReloadAfterClear | src/hooks/useChat.ts:125-131 | after `clearChat`, a session hydrated from storage starts with an empty log, whatever was stored before |
| Auth.DisplayNameSpec | src/hooks/useAuth.ts:36 | the display name is the whole email when it has no '@', and otherwise exactly the text before its first '@' |
| Auth.SignedIn | src/hooks/useAuth.ts:33-46 | a signed-in record has the user, the token and the flag set together, with the given email and name |
| Auth.AuthSession.constructor | src/hooks/useAuth.ts:7-24 | a parsed record is taken as the state; text that does not parse is removed from storage and the state stays signed out, except that empty text is skipped; no entry means signed out |
| Auth.AuthSession.Login | src/hooks/useAuth.ts:26-57 | succeeds exactly when the email is non-empty and the password has at least 6 UTF-16 units; on success the user has the email, the name derived from it and the token, and the record is stored; on failure state and storage are unchanged; consistency of flag, user and token is preserved |
| Auth.AuthSession.Register | src/hooks/useAuth.ts:59-90 | succeeds exactly when, in addition, the name is non-empty; the user then carries the given name; otherwise as `Login` |
| Auth.AuthSession.Logout | src/hooks/useAuth.ts:92-99 | back to no user, no token and not authenticated, with the stored record removed |
| Auth.LogoutTwice | src/hooks/useAuth.ts:92-99 | logging out is idempotent: a second logout leaves the same state and storage as the first |
| Auth.SignInAndOut | src/hooks/useAuth.ts:32-36 | from empty storage, signing in as "ada@example.org" gives the name "ada", a rejected attempt with an empty email leaves the name "ada", and logging out returns to the signed-out state |
| AuthFormModel.EmailPatternShape | src/components/auth/AuthForm.tsx:27 | anything matching `\S+@\S+\.\S+` has at least five characters, among them '@' and '.' |
| AuthFormModel.EmailPatternUnanchored | src/components/auth/AuthForm.tsx:27 | the pattern is not anchored: text added before or after a match still matches |
| AuthFormModel.TypicalAddressMatches | src/components/auth/AuthForm.tsx:27 | "user@example.com" matches the pattern |
| AuthFormModel.MissingDotFails | src/components/auth/AuthForm.tsx:27 | "user@example", with no dot, does not match |
| AuthFormModel.FormErrors | src/components/auth/AuthForm.tsx:22-40 | at most one error per field: the email is missing or invalid, the password missing or shorter than 6 units, the name missing only in register mode; no other keys |
| AuthFormModel.FormValidIff | src/components/auth/AuthForm.tsx:41-42 | the error map is empty exactly when all rules pass |
| AuthFormModel.ValidFormIsAccepted | src/pages/AuthPage.tsx:10-16 | a form that validates is always accepted by the `register` or `login` check that the page dispatches it to |
| AuthFormModel.AuthForm.constructor | src/components/auth/AuthForm.tsx:13-19 | the form starts with empty fields, no errors and not loading |
| AuthFormModel.AuthForm.ValidateForm | src/components/auth/AuthForm.tsx:22-43 | the error map is replaced wholesale by the rules' map, and the result is true exactly when that map is empty |
| AuthFormModel.AuthForm.HandleSubmit | src/components/auth/AuthForm.tsx:45-66 | `onSubmit` is called, with the three fields, exactly when the form validates; a false result leaves only the authentication-failed error, a throw only the generic error, success no errors; loading is off afterwards |
| AuthFormModel.AuthForm.HandleChange | src/components/auth/AuthForm.tsx:68-74 | only the named field takes the new value; that field's error is blanked if it was showing, and every other error is untouched |

## Left out

- Latency: the `setTimeout` delays of the mock assistant and the mock backend are not modelled. Their random lengths are left out too.
- Random values: the template pick is a parameter. Random user ids are opaque parameters.
- Opaque values: `Date`, `Date.now()`-based ids, `btoa` tokens and the token's expiry time are opaque parameters. Nothing is claimed about id uniqueness, which the code does not guarantee.
- JSON: `JSON.parse`/`stringify` are reduced to the three shapes of `Types.Stored`. Field-level decoding, such as turning timestamps back into `Date`, is abstracted away.
- Text.ToLower: lower-cases ASCII letters only; JavaScript's full Unicode case mapping is not modelled. So BotReplies.Respond can differ from the source on non-ASCII input: "H\u0130" (capital dotted I) lower-cases in JavaScript to a text containing "hi" and gets the welcome, while the model answers with a template; the Kelvin sign in "than\u212As" behaves the same way.
- Storage write failures: a `localStorage.setItem` that throws (for example, over quota) is not modelled. Neither are the `catch` branches of `login` and `register` that it would reach.
- React scheduling: state batching and the stale closure through which `getHistoryItem` reads the session are not modelled. Operations run one after another on the current state.
- Presentation and DOM effects are left out:
  - `scrollToBottom` and `messagesEndRef`;
  - the chat export download;
  - the input box's resizing, voice input and key handling;
  - `showPassword`;
  - all rendering.
- `isTyping`: the optional message field is never set by the hook, so `Types.Message` omits it.
- Logging: console logging in the `catch` blocks is left out.
