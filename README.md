# Orion personal assistant — a Dafny model

Orion is a personal assistant. It has two front ends:

- a command-line chat loop, where a tool-calling language model can read Gmail, send mail and post tweets;
- a Streamlit web app with login, registration, per-user Twitter settings and a chat panel.

This project models the core of both and proves properties of the model. The core covers:

- the Gmail search and message reading;
- outgoing message construction;
- the credential store and its password format;
- the agent graph with its tools;
- the web app's session state machine.

| file | module | models |
|---|---|---|
| `wrappers.dfy` | `Wrappers` | `Option`, Python's `None` versus a value |
| `strings.dfy` | `Strings` | the `str` operations the code relies on: clamped slicing, ASCII `isalnum`/`lower`, the `in` substring test, decimal rendering of an `int` |
| `read_email.dfy` | `ReadEmail` | `search_messages`, `clean`, `parse_parts`, `read_message` |
| `auth.dfy` | `Auth` | `hash_password`, `verify_password`, the `users` table with `register_user`, `login_user`, `update_twitter_credentials`, and the connection pool's check-out count |
| `send_email.dfy` | `SendEmail` | `add_attachment`, `build_message` |
| `agent.dfy` | `Agent` | `router`, `call_model`, the graph of `build_workflow`, the three tools, `chat` and the command-line loop |
| `interface.dfy` | `Interface` | `chat_with_ai`, `logout`, `login_page`, `register_page`, `dashboard` and the page dispatch of the entry point |

Collaborators the code calls but does not define are parameters:

- the Gmail service, modelled as data: a finite sequence of listing pages, and a function from message id to payload;
- base64url decoding and encoding;
- PBKDF2 and the random salt;
- `mimetypes.guess_type`, file contents and UTF-8 decoding;
- the language model, as a function from the message history to a reply;
- the tool executor;
- a database error, as a `failure` flag.

Objects whose fields the code updates in place are classes:

- the `users` table, `Auth.UserStore`;
- the MIME message under construction, `SendEmail.MimeMessage`;
- the agent's checkpointer memory, `Agent.Orion`;
- Streamlit's session state, `Interface.Session`.

In the code every later `text/plain` part with data overwrites `"body"`, in post-order with nested parts first (ReadEmail.py:64-70). `ReadEmail.BodyIsLastTextPart` proves that the *last* such part wins.

## Model

| member | source | states |
|---|---|---|
| Strings.Take | auth.py:62 | `s[:n]` clamps: the result is the prefix of length n, or all of `s` when it is shorter |
| Strings.Drop | auth.py:63 | `s[n:]` is exactly what follows `s[:n]` |
| Strings.Lower | ReadEmail.py:91-97 | `lower()` keeps the length and maps every ASCII capital to its small letter, position by position |
| Strings.Contains | ReadEmail.py:75 | `sub in s` holds exactly when `sub` occurs at some position of `s` |
| Strings.NatToString | agent.py:61 | the rendering of `i+1` is a non-empty string of decimal digits, one digit exactly for numbers below ten |
| Strings.NatToStringInjective | agent.py:61 | distinct numbers render differently, so the `Email_{i+1}` keys never collide |
| ReadEmail.SearchMessages | ReadEmail.py:32-44 | the result is the fetched pages' ids in fetch order, cut to `max_results`. The first request asks for `max_results`; each follow-up passes the previous page's token and asks for exactly the number still missing. A follow-up happens only after a page with a token while under the cap, and fetching stops at the first page without a token or once the cap is met |
| ReadEmail.LastFetched | ReadEmail.py:38 | the last page fetched is one of the listing's pages, at or after the current one |
| ReadEmail.Clean | ReadEmail.py:53-54 | same length; each alphanumeric character is kept and every other character becomes `_` |
| ReadEmail.CleanIdempotent | ReadEmail.py:53-54 | a cleaned string holds only alphanumerics and `_`, and cleaning it again changes nothing |
| ReadEmail.AttachmentHeaders | ReadEmail.py:72-77 | a part contributes at most one marker per header |
| ReadEmail.PartsData | ReadEmail.py:57-77 | the dictionary always holds `"attachments"` (a list of `count` marker strings) and holds `"body"` exactly when a body was found, with no other key |
| ReadEmail.AppendAttachmentMarkers | ReadEmail.py:72-77 | one marker `"Attachment found but not saved."` is appended per header named exactly `Content-Disposition` whose value contains `attachment`; the body is untouched |
| ReadEmail.ParseParts | ReadEmail.py:56-78 | the dictionary built in place equals `PartsResult`. Its attachment list is the last nested walk's list plus the markers of the parts after it, and its body is the decoded data of the last `text/plain` part with data |
| ReadEmail.MergeNested | ReadEmail.py:64-67 | merging a nested walk's dictionary replaces the attachment list by the nested one, and the body too when the nested walk found one |
| ReadEmail.PartsResultShape | ReadEmail.py:57-58 | `"attachments"` is always present, only `"attachments"` and `"body"` can occur, and no parts (empty or absent) give exactly `{"attachments": []}` |
| ReadEmail.BodyIsLastTextPart | ReadEmail.py:64-70 | the body comes from the last `text/plain` part with data in post-order, where nested parts come before their parent |
| ReadEmail.NestedResultReplacesAttachments | ReadEmail.py:64-67 | a part with nested parts replaces the attachment list by the nested walk's list, discarding the markers of earlier parts |
| ReadEmail.FlatPartsAccumulateAttachments | ReadEmail.py:71-77 | without nested parts, the markers of all parts add up |
| ReadEmail.ReadMessage | ReadEmail.py:80-100 | the dictionary built in place equals the header fields merged with `parse_parts`' result, whose keys win |
| ReadEmail.LastHeaderWins | ReadEmail.py:87-98 | a header key's value is the one of the last header whose lower-cased name matches it; the key is absent exactly when no header name matches |
| ReadEmail.EmailRecordFields | ReadEmail.py:86-100 | each of from/to/subject/date is present exactly when a matching header exists, with the last value. `"attachments"` is always present. `parse_parts`' entries override, and no other key appears |
| Auth.Hex | auth.py:58 | `.hex()` gives two lower-case hex digits per byte |
| Auth.HexInjective | auth.py:67 | different byte strings have different hex forms, so the hex comparison is a comparison of the derived keys |
| Auth.HashPassword | auth.py:53-58 | the stored string is the salt's hex followed by the hex of the key PBKDF2 derives with sha256 from the password, the salt's hex text and 100000 iterations; its properties are proved by `Auth.HashPasswordFormat` and `Auth.HashThenVerify` |
| Auth.VerifyPassword | auth.py:61-67 | splits the stored string after 32 characters into salt and hash, and accepts exactly when the hex of the key derived from the provided password with that salt equals the hash; proved about it by `Auth.VerifyIffSameKey` and `Auth.HashThenVerify` |
| Auth.HashPasswordFormat | auth.py:53-58 | the stored string is all lower-case hex: 32 digits of salt, then the derived key's hex digits computed with sha256, the salt's hex text and 100000 iterations |
| Auth.HashThenVerify | auth.py:53-67 | verifying a freshly stored hash with the same password succeeds |
| Auth.VerifyIffSameKey | auth.py:61-67 | another password verifies exactly when PBKDF2 derives the same key for it with the stored salt |
| Auth.UserStore.constructor | auth.py:27-45 | `CREATE TABLE IF NOT EXISTS` keeps the existing rows, and no connection is checked out |
| Auth.UserStore.GetConn | auth.py:14-24 | checking out a connection counts it, within the pool's maximum of 10 |
| Auth.UserStore.PutConn | auth.py:14-24 | giving a connection back uncounts it |
| Auth.UserStore.RegisterUser | auth.py:70-86 | succeeds exactly when the username is new and no database error occurs. It inserts the hashed password with null Twitter columns. On failure the table is unchanged, and the connection is always returned |
| Auth.UserStore.LoginUser | auth.py:89-103 | true exactly when there is no database error, the user exists and the stored password verifies; only the connection count is touched, and it is restored |
| Auth.UserStore.UpdateTwitterCredentials | auth.py:106-120 | the user's four Twitter columns are set. The password, the set of users and every other row stay as they were. An unknown user or a database error changes nothing |
| Auth.RegisterThenLogin | auth.py:70-103 | registering a new user and then logging in with the same password succeeds |
| SendEmail.SplitType | SendEmail.py:44 | `split('/', 1)` succeeds exactly when there is a `/`. The halves rejoined with `/` give the input back, and the main type contains no `/` |
| SendEmail.SplitTypeAt | SendEmail.py:44 | splitting `main/sub` gives back `main` and `sub` when `main` has no `/` |
| SendEmail.Basename | SendEmail.py:62 | the base name is the suffix after the last `/` and contains no `/` |
| SendEmail.EffectiveType | SendEmail.py:41-43 | the guessed type, replaced by `application/octet-stream` when there is no guess or the guess has an encoding; used by `SendEmail.AttachmentPartFallback` and `SendEmail.AttachmentPartShape` |
| SendEmail.AttachmentPart | SendEmail.py:41-63 | the part `add_attachment` builds: the effective type split at its first `/`, the class chosen by the main type, decoded text for `text` and raw bytes otherwise, and the disposition header with the base name; `None` when the type has no `/`. Its shape is proved by `SendEmail.AttachmentPartShape`, `SendEmail.AttachmentPartFallback` and `SendEmail.KindOfMainType` |
| SendEmail.AttachmentPartFallback | SendEmail.py:41-63 | an unknown or encoded guess falls back to `application/octet-stream`, which gives a generic part carrying the file's bytes, with the disposition header naming the base name |
| SendEmail.AttachmentPartShape | SendEmail.py:41-63 | a part is built exactly when the effective type has a `/`. Its main and sub type rejoined give the effective type, its class follows the main type, text is decoded and other kinds keep the bytes, and its one header is the disposition naming the base name |
| SendEmail.KindOfMainType | SendEmail.py:45-61 | `text`, `image` and `audio` each get their own class, and every other main type the generic one |
| SendEmail.MimeMessage.Text | SendEmail.py:68 | `MIMEText(body)` is a `text/plain` part carrying the body, with none of the headers the code sets |
| SendEmail.MimeMessage.Multipart | SendEmail.py:73 | `MIMEMultipart()` is an empty `multipart/mixed` container |
| SendEmail.MimeMessage.SetHeader | SendEmail.py:69-71 | setting a header appends it |
| SendEmail.MimeMessage.Attach | SendEmail.py:64 | attaching appends the part to the payload |
| SendEmail.AddAttachment | SendEmail.py:40-64 | the message gains exactly the attachment part built for the file; where the source raises, the message is unchanged |
| SendEmail.AttachAll | SendEmail.py:78-79 | the files' parts are attached in list order after what the message held; the loop fails exactly when some file's part cannot be built |
| SendEmail.AttachmentPartsInOrder | SendEmail.py:78-79 | one part per attachment, the i-th built from the i-th file, and a failure exactly when some file's part cannot be built |
| SendEmail.BuildMessage | SendEmail.py:66-80 | the result is the single-key dictionary `{'raw': ...}` holding the encoded composed message, and it fails exactly when some attachment fails |
| SendEmail.Compose | SendEmail.py:66-79 | the message `build_message` composes before encoding: a text part, or a multipart holding a header-less text part for the body and then the attachment parts; the outer message carries the to, from and subject headers; its shape is proved by `SendEmail.ComposeShape` |
| SendEmail.ComposeShape | SendEmail.py:66-79 | the headers are to, from (our address) and subject, in that order. Without attachments the message is one text part; with them it is multipart, with the body part first and then the attachments in order |
| Agent.Router | agent.py:84-89 | routes to the tools exactly when the last message requests tool calls |
| Agent.CallModel | agent.py:79-82 | the update is exactly one message: the model's reply to the whole history |
| Agent.ToolResults | agent.py:94 | one tool message per requested call, in the requested order |
| Agent.Run | agent.py:91-101 | a run appends at least the model's reply |
| Agent.RunExtends | agent.py:91-101 | a run only appends: the input history is a proper prefix of the result |
| Agent.FinishedRunIsTranscript | agent.py:95-100 | a run that reaches END appends model replies, each requesting reply followed by one result per call in order, and it ends right after a reply with no tool calls |
| Agent.AnswersCallsPointwise | agent.py:94 | results answer calls exactly when there is one per call and the j-th is a tool message carrying the j-th call's id |
| Agent.StoppedRunEndsWithToolCalls | agent.py:95-100 | a run cut short by the step bound ends on a reply that still requests tool calls |
| Agent.ReplyWithoutCallsEndsRun | agent.py:84-89 | a reply without tool calls ends the run at once, appending only that reply |
| Agent.NextNode | agent.py:95-100 | the graph's edges: START to Agent, Agent to Tools or END as the router says, Tools back to Agent; the walks they allow are described by `Agent.PathEdges` and followed by `Agent.Invoke` |
| Agent.PathEdges | agent.py:95-100 | a walk through the graph starts START, Agent, and every two consecutive nodes are joined by one of the graph's edges |
| Agent.Invoke | agent.py:91-101 | stepping the compiled graph computes `Run`. The visited nodes start START, Agent, follow only the graph's edges, and end at END exactly when the run finishes |
| Agent.EmailKey | agent.py:61 | the key `f"Email_{i+1}"` for position n = i + 1, `"Email_"` followed by n in decimal; `Agent.EmailKeyInjective` and `Agent.EmailKeyFresh` prove distinct positions get distinct keys |
| Agent.EmailKeyInjective | agent.py:61 | different positions give different `Email_n` keys |
| Agent.EmailKeyFresh | agent.py:59-61 | a later position's key is not among `Email_1`..`Email_k`, so each iteration adds a new key |
| Agent.EmailKeysCount | agent.py:59-61 | `Email_1`..`Email_k` are k distinct keys |
| Agent.EmailKeysHave | agent.py:59-61 | each of `Email_1`..`Email_k` is among them |
| Agent.FileResults | agent.py:58-62 | one entry per result; `Email_n` holds exactly the dictionary `read_message` builds from the payload fetched for the n-th result's id |
| Agent.ReadingEmail | agent.py:51-62 | every listing call it makes carries the tag as its query, the first asking for the cap of two with no page token; at most two results come back. `Email_1`..`Email_n` map to the dictionaries built from the payloads of the results, in search order, with n the number of results |
| Agent.SendingEmail | agent.py:64-70 | exactly one message is sent, the one built from address, subject and body without attachments, and the reply is `"Mail sent successfully"`; no tweet is posted |
| Agent.Tweet | agent.py:72-77 | exactly one tweet is posted with the message, and the reply is `"Tweeted successfully"`; no mail is sent |
| Agent.Orion.constructor | agent.py:17-26 | the system prompt is kept and the memory starts empty |
| Agent.ChatInput | agent.py:105-107 | the history a chat call runs on: the saved history, then the system prompt and the user's text, both as human messages; used by `Agent.Orion.Chat` |
| Agent.FinalReply | agent.py:108 | what a chat call returns: the last message's content of a finished run, `None` for a run stopped by the bound; used by `Agent.Orion.Chat` |
| Agent.Orion.Chat | agent.py:103-108 | thread "1" runs on its saved history plus the system prompt and the user's text; that history is saved, and the last message's content is returned |
| Agent.IsExitCommand | agent.py:116 | a line ends the loop when its lower-case form is `exit` or `quit`; used by `Agent.Repl` |
| Agent.Repl | agent.py:111-121 | the lines chatted are the inputs read before the first `exit`/`quit` in any case, each sent to exactly one chat call, in order. Thread "1" then holds the history the last of those calls left, each call starting from the one before it; it is untouched when nothing was chatted. The j-th printed line is `ORION: ` followed by the last message of the j-th call's finished run, and `Goodbye!` ends an exit. The loop fails exactly on a call whose run hits the step bound |
| Interface.ChatWithAi | interface.py:12-14 | the answer is `"AI Response to: "` followed by the message itself |
| Interface.ChatWithAiInjective | interface.py:12-14 | different messages get different answers |
| Interface.Dispatch | interface.py:126-134 | the dashboard is shown exactly when logged in on the dashboard page; otherwise the registration page exactly on the register page, and the login page for every other state |
| Interface.RegisterError | interface.py:52-61 | the message a refused sign-up shows: the mismatch message, else the short-password message, else the taken-name message; its order is proved by `Interface.RegisterErrorOrder` |
| Interface.RegisterErrorOrder | interface.py:52-61 | a mismatch is reported before a short password, and the store's refusal only when both checks pass |
| Interface.Session.constructor | interface.py:119-120 | a fresh session has none of the keys |
| Interface.Session.InitDefaults | interface.py:120-125 | `logged_in`, `username` and `page` get `False`, `""` and `"login"` only where absent; present values and the chat stay |
| Interface.Session.Logout | interface.py:17-20 | logged out, empty username, login page; the chat history stays |
| Interface.Session.LoginPage | interface.py:23-42 | success holds exactly when the form is submitted and `login_user` accepts. It then sets logged-in, the username and the dashboard page, and ends the rerun. A refusal reports the error and changes none of the three fields; the register link then moves to the register page |
| Interface.Session.RegisterPage | interface.py:45-64 | the password checks (mismatch, then length under 8) come before `register_user`, which is called only if both pass. Only a stored user moves to the login page and ends the rerun; every refusal leaves the session as it was, and the back button moves to login |
| Interface.Session.Dashboard | interface.py:67-116 | Save updates only the session user's Twitter columns. The chat history is created when absent. A non-empty input appends exactly the user entry and then the assistant's answer; an empty one appends nothing |
| Interface.Rerun | interface.py:119-134 | one run of the entry point shows the page `Dispatch` picks for the session after the defaults, and leaves the session and the users table as that page's handler does, starting from the defaulted keys. On the login page the session is logged in, with the form's name and the dashboard page, exactly when a submitted form's password verifies; otherwise the register link moves to the register page. On the register page a user is added exactly when the sign-up passes both checks with a new name, and a stored user or the back button moves to login. On the dashboard the three keys stay, Save stores the session user's Twitter fields and a non-empty input extends the chat. A logged-out session becomes logged in only through a verified login |

## Left out

- OAuth and token caching (`gmail_authenticate` in both Gmail classes, `process_email_credentials` and the Dashboard's "Generate Email Token" button): file I/O, pickling and interactive network flows.
- `get_size_format` (ReadEmail.py:46-51): floating-point formatting, and nothing in the core calls it.
- Base64url coding and MIME serialisation (`as_bytes`): these are abstract functions. The model describes MIME objects by class, type, headers and payload, not by their bytes.
- PBKDF2-HMAC-SHA256 and `os.urandom`: these are an uninterpreted function and a salt parameter. The model therefore does not claim that a wrong password fails, which would need collision freedom of PBKDF2.
- TwitterPost.py is not part of this model. A tweet is an entry appended to `Agent.Services.tweets`, and a sent mail one appended to `Agent.Services.sentMail`.
- The language model, `bind_tools` and the framework's tool dispatch are abstract functions:
  - the model maps the history to a reply;
  - the executor maps one call to its output text.
- `return_direct=True` on `tweet`: its effect lives in the framework and is not modelled.
- The system prompt's text and its `datetime.now()` timestamp: the prompt is a constructor parameter.
- Agent.Run: langgraph's recursion limit is modelled as a bound on the number of tool rounds; the limit's exact count of supersteps is not.
- Agent.Orion.Chat: a run stopped by that bound yields `None`, where the framework raises.
- Agent.Repl: a failing chat call ends the loop, as the uncaught exception would; nothing is printed for it.
- Agent.Repl: running out of input ends the loop cleanly with `EndOfInput`, where `input()` raises `EOFError` and the program ends on the uncaught exception.
- Streamlit rendering, banners' styling, `st.rerun` (modelled as ending the handler) and the Logout button's callback wiring (the callback itself is `Interface.Session.Logout`): UI plumbing.
- SQL engine internals: the `users` table is a map keyed by its primary key. A database error other than the duplicate key is a `failure` flag. Exhausting the pool and concurrent sessions are excluded by the precondition `checkedOut < 10`.
- Reading attachment files from disk, `guess_type` and UTF-8 decoding are functions passed in. UTF-8 decoding errors of attachments or part bodies are not modelled.
- Strings.Lower: `lower()` is modelled on ASCII letters only. This is exact for the names compared here (from, to, subject, date, exit, quit), but a non-ASCII header name is not lowered.
- ReadEmail.Clean: `isalnum()` is modelled on ASCII only. A non-ASCII letter or digit becomes `_` in the model, while Python keeps it.
- ReadEmail.SearchMessages: `max_results` is a natural number. The requirement that the last listing page has no `nextPageToken` says Gmail's pagination is finite.
- ReadEmail.ParseParts: a part's missing `headers` or `body` is modelled as empty, and a missing `parts` as empty, which the code treats the same as absent. Where Python raises on such a part (iterating `None`), the model continues instead.
- SendEmail.AddAttachment: a content type without `/` yields `false` and leaves the message unchanged, where Python raises `ValueError`. `BuildMessage` then returns `None`.
