# Webhook Chat Watcher — a verified model

The watcher is a small desktop tool for a 7 Days to Die dedicated server.
It follows the server log, recognises the chat lines the game writes, and posts each chat
message to a Discord webhook, rendered through a user-editable template. This project models
the string and decision logic of that pipeline, and the start/stop state of the window that
drives it:

- `ChatParser` (chat_parser.dfy): the chat-line regular expression
  `Chat \(from '([^']+)'(?:,.*?)\): '([^']+)': (.+)$`, applied with Python's
  `re.search`, followed by stripping spaces and quotes from the message.
  - `Shape` is the reference definition: every decomposition of a line that the pattern admits.
  - `Search` is the matcher. It takes the leftmost start and, for that start, the shortest qualifier.
  - The lemmas show that `Search` reports exactly the match Python reports.
- `Platform` (platform.dfy): the label shown for a platform id (`Xbox_…`, `PSN_…`, `Steam_…`).
- `Template` (template.dfy): the rendering of a message by three chained `str.replace`
  calls, with the default template used when the configured one is empty. `SinglePass` is an
  independent one-pass substitution, and the lemmas relate the two.
- `Webhook` (webhook.dfy): trimming the webhook address, refusing a blank one, and
  classifying the reply to a post. It also covers what handling one chat, or the test button,
  logs and posts.
- `TailWorker` (tail_worker.dfy): the worker's loop over the lines it read. Each line is
  stripped and skipped when blank. Otherwise the line is reported, and a parsed chat is
  reported and handed over. `Follow` and `Run` are methods proved against the functions
  `LinesEvents` and `WorkerEvents`, and the lemmas about those functions state what the run
  emits.
- `Session` (session.dfy): the main window as a class whose methods update its worker, its
  button caption, its log and the posts it has made. It is proved against the pure
  transition functions `Start`, `Stop`, `Toggle`, `Finished` and `Close`, which keep the
  caption in step with the worker.
- `Text` and `Wrappers` (text.dfy) hold shared helpers:
  - Python's `strip`, `startswith` and `str.replace`
  - decimal formatting of integers
  - an `Option` type

In three places the code does something other than a natural reading of its purpose suggests; the model follows the code:

- **Template rendering.** A single pass over the template would be the natural reading of
  "replace the placeholders". The code chains three `str.replace` calls instead, so a value
  that contains a placeholder is substituted again, and a value can even complete a
  placeholder with the template text around it. `Template.CascadeThroughValue` and
  `Template.CascadeThroughTemplate` exhibit both cases. `Template.RenderIsSinglePass` gives
  a condition under which the two agree: every `{` of the template starts a placeholder,
  and neither the platform label nor the user name contains a `{`. It is not enough for
  them to be free of placeholders. The message may hold anything, because `{message}` is
  replaced last: `Template.ExampleMessagePlaceholder` shows a message `{user}` sent as typed.
- **Message round trip.** Re-deriving a chat line from its parsed fields and parsing it
  again gives the same fields only when the stripped message is non-empty.
  `ChatParser.EmptyMessageDoesNotRoundTrip` shows a line whose message is `''`: it parses,
  but the re-derived line does not.
- **Button caption.** When the worker's run ends on its own (a missing file, a read error),
  the window does not settle back to idle. The button keeps the stop caption, and pressing
  it starts a new worker. `Session.StaleCaption` states this.

## Model

| member | source | states |
|---|---|---|
| ChatParser.Shape | main.py:41 | the reference grammar of the pattern: a decomposition of the line into the text before the match, a non-empty quote-free platform id, a newline-free qualifier after `',`, a non-empty quote-free user name, a non-empty newline-free message and an optional final newline, which spelled out with the literal parts is the line |
| ChatParser.MatchesAt | main.py:41 | the pattern matches from start `s` with the lazy qualifier ending at `p`: the opener, the quote-free run to the next quote, `',`, a newline-free qualifier up to a `): '`, the quote-free user name to the next quote, `': ` and a non-empty newline-free message up to where `$` may stand |
| ChatParser.NextQuote | main.py:41 | the index found is the first quote at or after the start (or the end of the line), with no quote before it, which is where a `'([^']+)'` group must end |
| ChatParser.FindQualEnd | main.py:41 | the lazy `.*?`: the qualifier end returned matches, and no earlier end at or after the starting point matches; none is returned only when no end matches |
| ChatParser.FindMatch | main.py:73 | `re.search`'s leftmost match: the returned start matches, no earlier start matches with any qualifier end, and the qualifier end is the shortest for that start; none is returned only when no start matches |
| ChatParser.ShapeMatches | main.py:41 | every decomposition the pattern admits is a match the matcher sees, cut into the same groups |
| ChatParser.MatchShape | main.py:41 | every match the matcher sees is a decomposition the pattern admits, starting where the match starts |
| ChatParser.Search | main.py:73 | `CHAT_LINE_RE.search`: what it reports is a decomposition the pattern admits, and it reports nothing exactly when the pattern admits no decomposition of the line |
| ChatParser.ShapeUnique | main.py:41 | two decompositions of a line with the same start and the same qualifier length are the same, because each `[^']+` group and `(.+)$` are forced |
| ChatParser.SearchLeftmostLazy | main.py:41 | whenever the pattern admits a decomposition, the search reports a match that starts no later, and that has a qualifier no longer when the start is the same |
| ChatParser.LazyQualifier | main.py:41 | at one start, when two qualifier ends both match, the shorter end is a `)` inside the longer qualifier, where the lazy qualifier could have stopped |
| ChatParser.SearchFirstStart | main.py:73 | a match at the start of the line whose qualifier has no `)` is the match reported |
| ChatParser.Parse | main.py:73-77 | the parse fails exactly when the pattern admits no decomposition of the line; on a match, the platform id and the user name are non-empty and quote-free, and the message has no space or quote at either end and is unchanged by a second strip |
| ChatParser.ParseFields | main.py:75-77 | on a match, the three fields are groups 1 and 2 and the stripped group 3 of the decomposition `Search` reports, which is one the pattern admits |
| ChatParser.ParseNeedsComma | main.py:41 | the qualifier group is mandatory: a line without a comma never parses |
| ChatParser.ExampleWithoutQualifier | main.py:41 | `Chat (from 'Steam_1'): 'Zed': hi` does not parse |
| ChatParser.ParseChatText | main.py:73-77 | a chat line built from a quote-free platform id and user name, a newline-free message and a qualifier without `)` parses to its own fields, with the message stripped |
| ChatParser.ExampleSteamChat | main.py:73-77 | `Chat (from 'Steam_123', Entity): 'Zed': hello world` parses to `Steam_123`, `Zed`, `hello world` |
| ChatParser.ReformatRoundTrip | main.py:73-77 | re-deriving a line from parsed fields with a non-empty message and parsing it again gives the same fields |
| ChatParser.EmptyMessageNeverParses | main.py:41 | a chat line with an empty qualifier and an empty message never parses (for a quote-free platform id and user name), since `(.+)` needs a character |
| ChatParser.EmptyMessageDoesNotRoundTrip | main.py:77 | a message made of quotes strips to nothing, and the line re-derived from those fields no longer parses |
| Text.TrimStart | main.py:67 | the result is a suffix of the input, everything removed belongs to the set, and the result does not start with a member of it |
| Text.TrimEnd | main.py:67 | the result is a prefix of the input, everything removed belongs to the set, and the result does not end with a member of it |
| Text.Strip | main.py:67 | `strip`: the result is a slice of the input with neither end in the set |
| Text.StripBlank | main.py:229-230 | the strip leaves nothing exactly when every character of the input belongs to the set |
| Text.StripKeepsStripped | main.py:77 | a string whose ends are outside the set is left unchanged by the strip |
| Text.StripIdempotent | main.py:77 | stripping twice is stripping once |
| Text.StripAbsent | main.py:77 | the strip adds no character: a character absent from the input is absent from the result |
| Text.ReplaceAll | main.py:222-224 | `str.replace` scanning left to right without overlaps; what it does is stated by `ReplaceAllAbsent`, `ReplaceAllSelf`, `ReplaceAllSkips` and `Template.ReplaceLeading` (it has no contract of its own) |
| Text.ReplaceAllAbsent | main.py:222-224 | `str.replace` leaves a string without the token unchanged |
| Text.ReplaceAllSelf | main.py:222-224 | replacing a token by itself leaves any string unchanged |
| Text.ReplaceAllSkips | main.py:222-224 | a prefix in which no occurrence of the token can begin is kept as it is, and the replacement continues after it |
| Text.NatToString | main.py:245 | `str` of a status code: a non-empty string of decimal digits with no leading zero (unless the value is 0) |
| Text.IntToString | main.py:245 | `str` of any integer: a minus sign before the digits of a negative value; `Webhook.FailureNamesStatus` states what it writes for a status code (it has no contract of its own) |
| Text.NatToStringRoundTrip | main.py:245 | the decimal text of a status code reads back as that code |
| Platform.Label | main.py:212-218 | the label differs from the id exactly when the id has a recognised prefix, and it is then the known name whose prefix, with an underscore, the id starts with |
| Platform.LabelOfPrefix | main.py:212-218 | an id that starts with a known name and an underscore is labelled with that name, whatever the order of the tests |
| Platform.LabelIdempotent | main.py:212-218 | labelling a label changes nothing |
| Platform.UnrecognisedByFirst | main.py:212-218 | an id whose first letter is not `X`, `P` or `S` is shown as it is |
| Platform.ExampleLowerCase | main.py:212-218 | the prefix test is case-sensitive: `steam_76561198` is shown as it is, and `Steam_76561198` as `Steam` |
| Template.Effective | main.py:220 | the template used is the default one when the configured one is empty, and the configured one otherwise |
| Template.Render | main.py:220-225 | the content for a chat: the effective template through the three chained replacements; what it gives is stated by `RenderIsSinglePass`, `RenderNoTokens`, `RenderEmptyTemplate` and the cascade lemmas (it has no contract of its own) |
| Template.Chain | main.py:222-224 | `{platform}`, then `{user}`, then `{message}` replaced in turn; `ChainIsSinglePass` states when it equals the single pass, and `CascadeUser` and `CascadeThroughTemplate` when it does not (it has no contract of its own) |
| Template.ChainIsSinglePass | main.py:221-225 | the chained replacement equals the single-pass substitution when every `{` of the template starts a placeholder and neither the platform label nor the user name contains `{`, whatever the message holds |
| Template.SinglePassNoBrace | main.py:221-225 | with a template whose `{` all start placeholders and values without `{`, the single-pass substitution leaves no `{` in the content |
| Template.ChainOfShape | main.py:222-224 | a template `a{platform}b{user}c{message}` with brace-free text, label and user name becomes `a`, the label, `b`, the user name, `c` and the message exactly as given |
| Template.RenderIsSinglePass | main.py:220-225 | a non-empty template whose `{` all start placeholders, rendered with a label and a user name free of `{`, gives the single-pass substitution for any message |
| Template.RenderNoBrace | main.py:220-225 | when the message is free of `{` as well, the rendered content has no stray `{` |
| Template.ExampleMessagePlaceholder | main.py:220-225 | a chat message `{user}` rendered through `{platform} - {user}: {message}` is sent as typed: `Steam - Zed: {user}` |
| Template.RenderNoTokens | main.py:220-225 | a non-empty template without placeholders is sent unchanged |
| Template.RenderEmptyTemplate | main.py:220-225 | for a platform label and a user name without `{`, an empty template renders as the default template: zombie, platform, dash and the user in bold before the message |
| Template.ExampleRender | main.py:220-225 | `{platform} - {user}: {message}` with `Steam`, `Zed` and `hello world` renders as `Steam - Zed: hello world` |
| Template.ReplaceLeading | main.py:222-224 | `str.replace` replaces an occurrence of the token at the very start |
| Template.CascadeUser | main.py:222-224 | a user name that is itself `{message}` is replaced again by the message in the chained replacement, but not in a single pass |
| Template.CascadeThroughValue | main.py:222-224 | the template `{user}` with the user name `{message}` sends the message text rather than the user name |
| Template.CascadeThroughTemplate | main.py:222-224 | a platform label can complete a placeholder with the template text around it: `{u{platform}r}` with `se` sends the user name |
| Webhook.Classify | main.py:242-247 | the post succeeds exactly for status 200 or 204, with no text; any other status fails with a text starting `HTTP `; an exception fails with its own text |
| Webhook.FailureNamesStatus | main.py:245 | a failed status is reported as `HTTP `, the code's decimal digits without leading zero, ` - ` and the body, and those digits read back as the code |
| Webhook.ExampleNotFound | main.py:245 | status 404 with body `Unknown Webhook` is the failure `HTTP 404 - Unknown Webhook` |
| Webhook.Address | main.py:229 | the address is a slice of the field with no whitespace at either end, and it is blank exactly when the field holds nothing but whitespace |
| Webhook.AddressCutsWhitespace | main.py:229 | only whitespace is cut from the field, and only from its two ends |
| Webhook.AddressIdempotent | main.py:229 | trimming an address already trimmed changes nothing |
| Webhook.Content | main.py:212-225 | the template rendered with the platform label, the user name and the message; `Platform.Label` and the `Template` lemmas state what it gives (it has no contract of its own) |
| Webhook.Dispatch | main.py:229-237 | nothing is posted exactly when the address is blank; otherwise the content is posted to it, and the one log line is the success line exactly on success, the blank line exactly when nothing is posted, and the error line with the failure text otherwise |
| Webhook.NewChat | main.py:220-237 | the content is logged first; a post is made exactly when the address is not blank, to that address with the rendered content; the second log line is the success line exactly on a successful post, the blank line exactly when nothing is posted, and the error line with the failure text otherwise |
| Webhook.TestWebhook | main.py:249-259 | nothing is posted exactly when the address is blank; otherwise the fixed test text is posted, and the one log line is the success line exactly on success, the prompt exactly when nothing is posted, and the error line with the failure text otherwise |
| TailWorker.Report | main.py:71-79 | the events of a stripped non-blank line: its report, then the parsed chat's report and the chat itself when it parsed; `ReportChats` and `ReportDetected` state what it hands over (it has no contract of its own) |
| TailWorker.LineEvents | main.py:67-79 | the events of one line read: none when it is blank once stripped, its report otherwise; `Step` is proved to emit them (it has no contract of its own) |
| TailWorker.LinesEvents | main.py:61-79 | the events of the lines read, in order; `Follow` is proved to emit them, and `ChatsOfLines`, `DetectedOfLines` and `LinesEventsAppend` state what they contain (it has no contract of its own) |
| TailWorker.WorkerEvents | main.py:54-84 | the events of a run: the announcement, then the events of the lines or the not-found line; `Run` is proved to emit them, and `MissingFile` states the missing-file case (it has no contract of its own) |
| TailWorker.Step | main.py:67-79 | one pass of the loop over a line emits exactly that line's events: none when blank once stripped, its report otherwise |
| TailWorker.Follow | main.py:61-79 | the loop over the lines read emits the events of each line, in the order the lines were read |
| TailWorker.Run | main.py:54-84 | the run announces the file, then emits the events of the lines read, or reports the file missing |
| TailWorker.LinesEventsAppend | main.py:61-79 | reading more lines only adds events after those already emitted |
| TailWorker.ReportChats | main.py:73-79 | the report of a line hands over exactly the parsed chat, if any |
| TailWorker.ChatsOfLines | main.py:61-79 | the window is handed exactly the chats the parser finds in the stripped non-blank lines, in the order of the lines, and nothing else |
| TailWorker.ReportDetected | main.py:71 | a report reports its line as detected exactly once |
| TailWorker.DetectedOfLines | main.py:61-79 | every line that is not blank once stripped is reported as detected exactly once, in order, and blank lines are not reported |
| TailWorker.MissingFile | main.py:57-82 | a missing file gives the announcement and the not-found line, and no chat |
| Session.Start | main.py:191-202 | starting keeps the caption in step with the worker and only adds to the log; `StartRejected` and `StartAccepted` state both outcomes |
| Session.Stop | main.py:204-209 | stopping keeps the caption in step with the worker and only adds to the log |
| Session.Toggle | main.py:185-189 | the button keeps the caption in step with the worker and only adds to the log |
| Session.Finished | main.py:81-84 | the end of the worker's run keeps the caption, the log and the presence of a worker, marks the worker as not running on the same file, and keeps the caption in step with the worker |
| Session.Close | main.py:261-264 | closing keeps the log and the caption, leaves any worker in place on the same file but not running, and keeps the caption in step with the worker |
| Session.InitialConsistent | main.py:103 | a window just opened has no worker and the start caption |
| Session.StartRejected | main.py:192-195 | an empty or missing path is refused: the worker and the caption are unchanged, and only the error line is logged |
| Session.StartAccepted | main.py:196-202 | an existing path starts a running worker on it, shows the stop caption and logs the start |
| Session.ToggleStopsRunning | main.py:185-209 | the button stops a running worker, drops it, shows the start caption and logs the stop |
| Session.StopIdempotent | main.py:204-209 | stopping twice is stopping once |
| Session.ToggleTwice | main.py:185-209 | from a fresh window, two presses on an existing file start and then stop a worker, logging both |
| Session.StaleCaption | main.py:185-202 | after the worker's run ends on its own the stop caption stays, yet a press starts a new worker |
| Session.MainWindow.constructor | main.py:92-106 | a new window has no worker, the start caption, an empty log and no posts, and keeps the configured fields |
| Session.MainWindow.AppendLog | main.py:181-183 | one line is added at the end of the log, and nothing else changes |
| Session.MainWindow.StartWatching | main.py:191-202 | the window's session state becomes `Start` of the old one, and the caption stays in step with the worker |
| Session.MainWindow.StopWatching | main.py:204-209 | the window's session state becomes `Stop` of the old one |
| Session.MainWindow.ToggleWatch | main.py:185-189 | the window's session state becomes `Toggle` of the old one |
| Session.MainWindow.WorkerFinished | main.py:81-84 | the worker is marked as no longer running, and the caption and log are kept |
| Session.MainWindow.CloseWindow | main.py:261-264 | closing stops the worker but leaves it in the field |
| Session.MainWindow.OnNewChat | main.py:211-237 | the log and the posts grow by exactly what `Webhook.NewChat` says, and the session state is kept |
| Session.MainWindow.TestWebhookButton | main.py:249-259 | the log and the posts grow by exactly what `Webhook.TestWebhook` says, and the session state is kept |

## Left out

- The widgets, layout, file dialog (`browse_file`) and window flags are left out, because they are user interface.
- Log timestamps are left out: `append_log` adds the text without its timestamp.
- Reading and writing `config.ini` (`load_or_create_config`, `load_settings_to_ui`, `save_settings_from_ui`) is left out, because it is file I/O in a library format. The window is constructed with the field texts instead.
- The `requests.post` call is left out, because it is a network call. Its reply, a status with a body or the text of an exception, is a parameter of `Webhook.NewChat` and `Webhook.TestWebhook`.
- Opening the file, seeking to its end, polling with `readline` and sleeping are left out, because they are file I/O and time. The worker is given the lines it read, and whether the file exists.
- File decoding with `errors='replace'` is left out, because lines are already text.
- The generic `Error en TailWorker` branch is left out, because it reports an arbitrary exception from file I/O. Its effect on the window, a run that ends on its own, is `Session.Finished`.
- The `QThread` itself is left out, because it is concurrency: its start, the `_running` flag, `wait(2000)` and the delivery of signals across threads. A worker is a value with a `running` flag.
- The interleaving of worker events with the window's handlers is left out for the same reason. Each handler is a separate method.
- `float(poll_interval)` is left out, because it is floating point and only sets the sleep time.
- `os.path.exists` is left out, because it is a file-system query. It is a boolean parameter.
- `Session.MainWindow.CloseWindow`: Qt's `event.accept()` is not modelled, only the stop of the worker.
