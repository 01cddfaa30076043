# Chat relay policy of chatbot-ai, in Dafny

The chatbot keeps one in-memory conversation log (`chatHistory`) and relays each
submitted message to a chat-completion API. It exists in two versions, the
handlers in `app.js` and the router in `routes/chat.js`, which differ in policy:

- `app.js`: a missing, empty or whitespace-only message is answered with a
  warning entry. Any other message is recorded as a `user` entry and answered
  with the completion text. On failure the answer is an error text that starts
  with `❌ Terjadi kesalahan: ` and may quote the remote `data.error.message` or
  the raw `error.message`.
- `routes/chat.js`: a blank message changes nothing. A failure is answered with
  one of five fixed texts, so remote and raw error text never reach the user.
- In both, POST /clear empties the log, and the completion client throws
  `OPENAI_API_KEY tidak ditemukan di file .env` before any request when the key
  is unset or empty.

The project has four modules:

- `ChatCore` (`chat_core.dfy`) holds what both versions share: entries, the
  abstract outcome of the completion call, the `trim`-based blank check and the
  missing-key check.
- `AppRelay` (`app_relay.dfy`) models `app.js`.
- `RouterRelay` (`router_relay.dfy`) models `routes/chat.js`.
- `Versions` (`versions.dfy`) compares the two.

Each relay module has:

- a pure `ClassifyError`;
- a function `Exchange` that gives the entries one POST /chat appends;
- a history invariant (`Answered`, `Turns`) with a lemma that every exchange
  keeps it;
- a class `ChatLog` whose `history: seq<Message>` field the `Chat` and `Clear`
  methods update in place, proved against `Exchange` and the invariant.

The remote call is an input. An `Outcome` is either `Reply(text)` or
`Failure(RemoteError(status, dataErrorMessage, code, message))`, where `status`
is present exactly when `error.response` is. The API key is an
`Option<string>` input.

JavaScript falsiness is modelled where the source relies on it:

- `!process.env.OPENAI_API_KEY` holds for an absent key and for an empty one.
- `data?.error?.message || 'Error dari OpenAI'` falls back when the text is
  absent or empty.
- `!userMessage || userMessage.trim() === ''` uses the ECMAScript whitespace
  set: WhiteSpace, including the Unicode Zs characters, plus LineTerminator.

Policy points of the code that are easy to miss:

- Neither file has a rule-based fallback responder. A 401 or 429 failure is
  answered with an error text, never with a canned reply.
- `routes/chat.js` gives the server-fault text only for status 500. 502, 503
  and every other unrecognised status get the default apology, as
  `RouterRelay.DefaultIffUnrecognised` states.
- A blank message gets a warning entry in `app.js` and leaves the log
  unchanged in `routes/chat.js`.

## Model

| member | source | states |
|---|---|---|
| `ChatCore.IsWhitespace` | app.js:46 | the characters `String.prototype.trim` strips: the ECMAScript WhiteSpace set (including Unicode Zs) and LineTerminator set |
| `ChatCore.TrimStart` | app.js:46 | removes the leading whitespace; characterised by `ChatCore.TrimStartCutsLeadingWhitespace` |
| `ChatCore.TrimEnd` | app.js:46 | removes the trailing whitespace; characterised by `ChatCore.TrimEndCutsTrailingWhitespace` |
| `ChatCore.Trim` | app.js:46 | `userMessage.trim()`, both cuts in turn; its empty case is characterised by `ChatCore.TrimEmptyIffAllWhitespace` |
| `ChatCore.TrimStartCutsLeadingWhitespace` | app.js:46 | `trim`'s first half keeps a suffix of the text that does not start with whitespace, and everything it removes is whitespace |
| `ChatCore.TrimEndCutsTrailingWhitespace` | app.js:46 | `trim`'s second half keeps a prefix that does not end with whitespace, and everything it removes is whitespace |
| `ChatCore.TrimEmptyIffAllWhitespace` | app.js:46 | `s.trim() === ''` holds exactly when every character of `s` is whitespace |
| `ChatCore.BlankIffAbsentOrAllWhitespace` | routes/chat.js:25 | the empty-message check, the same in both files, rejects exactly an absent message or one made only of whitespace |
| `ChatCore.IsBlank` | app.js:46 | `!userMessage \|\| userMessage.trim() === ''`, the same check as routes/chat.js:25; characterised by `ChatCore.BlankIffAbsentOrAllWhitespace` |
| `ChatCore.KeyMissing` | app.js:98 | `!process.env.OPENAI_API_KEY`: the key is unset or the empty string, the same test as routes/chat.js:75 |
| `ChatCore.CallOpenAI` | routes/chat.js:75-76 | `callOpenAI`'s key check, the same as app.js:98-99: a missing key gives a plain Error, otherwise the remote outcome; characterised by `ChatCore.KeyCheckPrecedesRequest` |
| `ChatCore.KeyCheckPrecedesRequest` | app.js:98-99 | without a key every remote outcome is replaced by the same Error, which has no response, no code and the message `OPENAI_API_KEY tidak ditemukan di file .env`; with a key the remote outcome passes through unchanged |
| `AppRelay.ClassifyError` | app.js:68-82 | every error text starts with the `❌ Terjadi kesalahan: ` prefix, and an explanation follows it unless the raw `error.message` surfaced and was empty |
| `AppRelay.ResponseOutranksCode` | app.js:70-78 | once there is an HTTP response, neither `error.code` nor `error.message` affects the text: the response is examined first |
| `AppRelay.StatusTexts` | app.js:70-77 | 429 gives the quota text and 401 the invalid-key text; any other status gives the remote `data.error.message` when it is non-empty, else `Error dari OpenAI` |
| `AppRelay.NoResponseTexts` | app.js:78-82 | without a response, `ENOTFOUND` gives the connection text and anything else the raw `error.message`; the remote data plays no part |
| `AppRelay.Exchange` | app.js:44-84 | a blank message appends only the warning entry; any other message appends exactly two entries, first `user` with the message unchanged, then `assistant`. The assistant entry is the completion text on success, always starts with the error prefix on failure, and with a key present is exactly `ClassifyError` of the remote error |
| `AppRelay.BlankSkipsRemote` | app.js:46-53 | for a blank message what is appended depends neither on the key nor on the remote outcome: no call is made |
| `AppRelay.MissingKeyAnswer` | app.js:98-99 | with the key unset or empty, the remote outcome plays no part and the answer is the prefix followed by `OPENAI_API_KEY tidak ditemukan di file .env` |
| `AppRelay.ExchangeKeepsAnswered` | app.js:46-84 | every exchange keeps the log invariant: each `user` entry holds a non-blank message and is immediately followed by an `assistant` entry |
| `AppRelay.ChatLog.constructor` | app.js:17 | the log starts empty, so the invariant holds |
| `AppRelay.ChatLog.Chat` | app.js:44-86 | POST /chat only appends, and what it appends is `Exchange`; earlier entries are untouched and the invariant is kept |
| `AppRelay.ChatLog.Clear` | app.js:91 | POST /clear leaves an empty log from any prior state |
| `RouterRelay.ClassifyError` | routes/chat.js:44-59 | the error text is always one of the five fixed texts |
| `RouterRelay.RecognisedTexts` | routes/chat.js:50-58 | status 429 gives the rate-limit text, 401 the invalid-key text, 500 the server-fault text, and no response with code `ENOTFOUND` the network text |
| `RouterRelay.ErrorTextsDistinct` | routes/chat.js:44-58 | the five fixed texts are pairwise different, so with `RouterRelay.RecognisedTexts` and `RouterRelay.DefaultIffUnrecognised` each failure class is recognisable from the text |
| `RouterRelay.DefaultIffUnrecognised` | routes/chat.js:44-59 | the default apology is shown exactly when the status is present but not 429, 401 or 500, or when it is absent and the code is not `ENOTFOUND` |
| `RouterRelay.HidesRemoteText` | routes/chat.js:44-59 | the text never depends on `data.error.message` or on `error.message`, so neither can reach the user |
| `RouterRelay.ResponseOutranksCode` | routes/chat.js:46-57 | once there is an HTTP response, `error.code` does not affect the text |
| `RouterRelay.Exchange` | routes/chat.js:23-61 | a blank message appends nothing; any other message appends exactly two entries, first `user` with the message unchanged, then one `assistant`. The assistant entry is the completion text on success, always one of the fixed texts on failure, and with a key present exactly `ClassifyError` of the remote error |
| `RouterRelay.MissingKeyAnswer` | routes/chat.js:75-76 | with the key unset or empty, the remote outcome plays no part and the answer is the default apology |
| `RouterRelay.ExchangeKeepsTurns` | routes/chat.js:25-61 | every exchange keeps the log a sequence of whole turns: even length, `user` entries with non-blank messages at even positions, `assistant` entries at odd ones |
| `RouterRelay.ChatLog.constructor` | routes/chat.js:5 | the log starts empty, so the invariant holds |
| `RouterRelay.ChatLog.Chat` | routes/chat.js:23-62 | POST /chat only appends, and what it appends is `Exchange`; earlier entries are untouched and the invariant is kept |
| `RouterRelay.ChatLog.Clear` | routes/chat.js:69 | POST /clear leaves an empty log from any prior state |
| `Versions.SameTurnOnReply` | routes/chat.js:31-38 | on a non-blank message that the completion client answers, both versions append the same two entries |
| `Versions.SameUserEntry` | routes/chat.js:25-31 | on a non-blank message both versions first record the same `user` entry; on a blank one `app.js` appends one warning and `routes/chat.js` nothing |

## Left out

- The rule-based fallback responder is not part of this model. It does not appear in `app.js` or `routes/chat.js`.
- Express setup, body parsing, static files, the request-logging middleware, `console` output, view rendering, redirects and the global error handler are framework plumbing.
- The axios POST, its headers, the request body constants (model name, `max_tokens`, `temperature`) and the 30-second timeout are left out. The same goes for extracting `response.data.choices[0].message.content`. The call's result is the `Outcome` input.
- Reading the key through dotenv and `process.env` is left out; the key is an input.
- Concurrency is left out. The handlers `await` the remote call, so another request's entries can land between a `user` entry and its answer in the shared array. The model serves one request at a time, and the `Answered` and `Turns` invariants hold only under that assumption.
- Non-string values are not modelled. This covers a request body field that is not a string (for example an array from extended urlencoded parsing), a non-string `data.error.message` and a `null` completion content. Every such value is a `string` or an absent `Option` here.
- The time order of "record the user entry, then await the client" is not modelled. The outcome is an input, so the order shows only in the sequence of updates in `ChatLog.Chat`.
