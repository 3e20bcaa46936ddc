# Syncvert core in Dafny

Syncvert keeps a pasted `curl` command and two name fields (title and episode) in step across
every browser that has the page open, and turns the `curl` command into a `yt-dlp` command line.
This project models the two parts that carry logic:

- **The client** (`client/src/App.jsx`). `extractInfoFromCurl` pulls the URL, `Referer`,
  `User-Agent`, the `-b` cookie string and every `-H 'Name: value'` header out of the `curl`
  text. `convertToYtDlp` builds the `yt-dlp` tokens and joins them. The socket handlers
  (`init_state`, `curl_update`, `meta_update`) and the local edits (`updateCurl`, `updateMeta`)
  update the page's three fields.
- **The server** (`server/index.js`). It holds one record `{curl, title, episode}`. It sends it
  to each new socket as `init_state`, applies `curl_update` and `meta_update`, and relays each
  update to every other connected socket.

Files and modules:

| file | module | what |
|---|---|---|
| options.dfy | Options | `Option`, the `null` of a failed `match` |
| wire.dfy | Wire | JavaScript values, payload objects, truthiness, the three socket messages |
| scanner.dfy | Scanner | the five regular expressions as leftmost-match scanners, proved exact |
| curl_info.dfy | CurlInfo | `extractInfoFromCurl`, the headers object, the `forEach` as a loop |
| yt_dlp.dfy | YtDlp | the file-name sanitiser, the tokens, `join`, `convertToYtDlp` as a loop |
| client.dfy | Client | the page's fields, its socket handlers, its local edits, the derived command |
| server.dfy | Server | the record, the handlers as a state machine (`Hub`) and as a mutable object (`Store`) |
| sync.dfy | Sync | server and pages together, with messages in flight: when they stay in step, and how racing edits split them |

Modelling choices:

- Each regular expression is a scanner that returns the leftmost match. `[^']+` and `[^:]+` are
  greedy runs of negated classes, so no backtracking can change a match. `Scanner.MatchAtExact`
  proves that the scanner's match at an index is the only string the expression can match there.
- The headers object is an association list in insertion order. Assigning an existing name keeps
  its place and replaces its value.
- JavaScript values are a datatype. A payload object is a `map<string, Value>`, and a missing
  property reads as `undefined`. The page's fields can hold any value because `meta_update`
  stores anything that is not `undefined`. The derived command is `None` when a field is not a
  string, since `.match` or `.replace` then throws a `TypeError`.
- The server is a sequential state machine, because each handler runs to completion. Sending is
  appending to the socket's outbox. Outboxes of sockets that have left stay frozen. Socket ids
  come from a counter, so they are always new.
- Server and pages together form a world in which every network event is a separate action: a
  user's edit changes the page at once and queues its message; the server handles a page's oldest
  queued message; a page takes in the oldest message sent to it. Messages travel in order, as on
  one socket.io connection, but nothing bounds how long they take, so edits on two pages can cross.

The model follows the code as written:

- No quote escaping inside tokens.
- The client's `meta_update` takes any value that is not `undefined`, not only strings.
- The record's field is `curl`.
- The referer, user-agent and cookie tokens come first; then the generic headers, with
  `User-Agent` and `Referer` skipped by exact, case-sensitive name.

## Model

| member | source | states |
|---|---|---|
| Scanner.RunLength | client/src/App.jsx:12-18 | the longest run of characters other than the stop character: none of them is it, and it is followed by it or by the end |
| Scanner.MatchAt | client/src/App.jsx:12-18 | a match ends after its start, within the text, and its captures are non-empty and free of the character that ends them (`'`, or `:` for a header name) |
| Scanner.MatchAtExact | client/src/App.jsx:12-18 | the scanner reports a match at an index exactly when the text there spells the expression with those captures, so the regex's match there is unique |
| Scanner.Search | client/src/App.jsx:12-15 | `match` finds the leftmost match: it is a match, and no match starts earlier |
| Scanner.MatchAll | client/src/App.jsx:18 | `matchAll` yields matches in order, each starting at or after the previous one's end |
| Scanner.MatchAllSkipsNothing | client/src/App.jsx:18 | no match starts before the first one reported, between two reported ones, or after the last |
| CurlInfo.Capture | client/src/App.jsx:12-27 | a field is `''` exactly when its pattern matches nowhere; otherwise it is the capture of the leftmost match, non-empty and without `'` |
| CurlInfo.Put | client/src/App.jsx:20 | `headers[key] = value` invents no entry: each entry is an old one or the new pair |
| CurlInfo.PutKeys | client/src/App.jsx:20 | a new name is appended; an existing name keeps its place |
| CurlInfo.PutLookup | client/src/App.jsx:20 | afterwards the name reads as the new value and every other name as before |
| CurlInfo.HeadersOf | client/src/App.jsx:17-21 | every stored entry is one of the captured pairs |
| CurlInfo.HeaderPairs | client/src/App.jsx:18-19 | every captured name is non-empty without `:`, every value non-empty without `'` |
| CurlInfo.Extract | client/src/App.jsx:11-30 | every stored header is a captured pair with a non-empty name without `:` and a non-empty value without `'` |
| CurlInfo.ExtractEmpty | client/src/App.jsx:11-30 | an empty text yields four empty fields and no headers |
| CurlInfo.HeadersDistinct | client/src/App.jsx:17-21 | the headers object holds each name once |
| CurlInfo.HeadersLookup | client/src/App.jsx:17-21 | for a repeated name the last occurrence's value is stored |
| CurlInfo.HeadersOrder | client/src/App.jsx:17-21 | names stand in the order of their first occurrence |
| CurlInfo.CollectHeaders | client/src/App.jsx:17-21 | the `forEach` loop builds exactly the headers object of the captured pairs |
| YtDlp.Sanitize | client/src/App.jsx:48-49 | the result has the same length, and each character is `_` if unsafe and unchanged otherwise |
| YtDlp.SanitizeClean | client/src/App.jsx:48-49 | the sanitised text holds none of the nine unsafe characters; safe characters are kept |
| YtDlp.SanitizeIdempotent | client/src/App.jsx:48-49 | sanitising twice equals sanitising once |
| YtDlp.SanitizeKeepsSafe | client/src/App.jsx:48-49 | a text without unsafe characters is unchanged |
| YtDlp.FileName | client/src/App.jsx:48-50 | the file name is as long as title and episode together plus four, ends in `.mp4`, and holds no unsafe character before that |
| YtDlp.FileNameConcat | client/src/App.jsx:48-50 | the file name is sanitised title, then sanitised episode with no separator, then `.mp4` |
| YtDlp.FileNameExample | client/src/App.jsx:48-50 | `('a/b:c', '1?2')` gives `a_b_c1_2.mp4` |
| YtDlp.HeaderTokens | client/src/App.jsx:40-44 | the header tokens, in object order: at most one per stored header |
| YtDlp.PushHeaders | client/src/App.jsx:40-44 | the `for…of` loop appends, after the tokens already pushed, exactly the header tokens: one `--add-header` token per header not named `User-Agent` or `Referer`, in object order |
| YtDlp.HeaderTokensCount | client/src/App.jsx:40-44 | one `--add-header` token per stored header whose name is not excluded |
| YtDlp.HeaderTokensExactly | client/src/App.jsx:40-44 | a generic header token is emitted exactly for the stored headers named other than `User-Agent` and `Referer` |
| YtDlp.LowerCaseRefererEmitted | client/src/App.jsx:41 | the exclusion is case-sensitive: `referer` is emitted, `Referer` is not |
| YtDlp.Tokens | client/src/App.jsx:34-50 | the `base` array starts with `yt-dlp` and ends with the `-o` token |
| YtDlp.TokensShape | client/src/App.jsx:34-50 | `yt-dlp` first, the `-o` token last, and the count: 2, plus 1 per non-empty referer, user-agent, cookie and URL, plus the included headers |
| YtDlp.UrlBeforeOutput | client/src/App.jsx:46-50 | the quoted URL sits just before the `-o` token if and only if the URL is non-empty |
| YtDlp.FixedOptionsPresent | client/src/App.jsx:36-37 | the `--referer` and `--user-agent` tokens are present if and only if their fields are non-empty |
| YtDlp.FixedOptionsOrder | client/src/App.jsx:34-46 | after `yt-dlp` come the referer, user-agent and cookie options in that order, each only when non-empty; then exactly the generic header tokens, before the URL and `-o` tokens |
| YtDlp.CookieOptionPresent | client/src/App.jsx:38 | a non-empty cookie string yields the `--add-header "Cookie: …"` option |
| YtDlp.NamePartIndependent | client/src/App.jsx:34-50 | the tokens before the `-o` token do not depend on title or episode; the `-o` token does not depend on the curl fields |
| YtDlp.Join | client/src/App.jsx:52 | the joined text starts with the first token |
| YtDlp.JoinLength | client/src/App.jsx:52 | the joined text is as long as every token plus one separator between each two |
| YtDlp.JoinAppend | client/src/App.jsx:52 | joining two non-empty lists one after the other gives the first's joined text, one separator, then the second's: the tokens in order with one separator between each two |
| YtDlp.JoinEnds | client/src/App.jsx:52 | the joined text starts with the first token and ends with the last |
| YtDlp.YtDlpCommand | client/src/App.jsx:33-52 | every command starts with `yt-dlp` |
| YtDlp.CommandEnds | client/src/App.jsx:34-52 | the command starts with `yt-dlp` and ends with the `-o` token |
| YtDlp.EmptyCommand | client/src/App.jsx:33-52 | empty curl, title and episode give exactly `yt-dlp \`, a newline, and `  -o ".mp4"` |
| YtDlp.ConvertToYtDlp | client/src/App.jsx:33-53 | the push-by-push loop yields exactly the joined tokens |
| Client.OnInitState | client/src/App.jsx:64-68 | each field takes the snapshot's value when that value is truthy, `''` otherwise |
| Client.InitStateReplacesAll | client/src/App.jsx:64-68 | a snapshot of strings replaces all three fields, whatever they were |
| Client.InitStateDefaults | client/src/App.jsx:64-68 | a missing or falsy field becomes `''` |
| Client.OnCurlUpdate | client/src/App.jsx:71-73 | `curl_update` sets `curlText` to the received value, whatever it is; title and episode stay |
| Client.OnMetaUpdate | client/src/App.jsx:76-79 | each name field takes the payload's value when that value is not `undefined` and stays otherwise; `curlText` stays |
| Client.ReceiveAllFirst | client/src/App.jsx:64-79 | taking in a queue of messages is taking in the first, then the rest |
| Client.UpdateCurl | client/src/App.jsx:97-100 | only `curlText` changes, to the typed text, and that text is emitted as `curl_update` |
| Client.MetaTitleOnly | client/src/App.jsx:76-79 | a title-only payload changes the title and nothing else |
| Client.MetaTakesDefined | client/src/App.jsx:76-79 | a field changes only when the payload's value is not `undefined`, and then it becomes that value; `curlText` never changes |
| Client.UpdateMeta | client/src/App.jsx:103-113 | exactly the named field changes, to the typed text, and the payload carries both title and episode as they stand after the edit |
| Client.UpdateMetaEchoHarmless | client/src/App.jsx:76-113 | receiving one's own meta payload back would change nothing |
| Client.Command | client/src/App.jsx:90-94 | a command is produced exactly when all three fields are strings |
| Server.Snapshot | server/index.js:51 | the `init_state` payload has exactly the keys `curl`, `title`, `episode`, holding the record's values |
| Server.ApplyCurl | server/index.js:55 | `curl` becomes the received value; title and episode stay |
| Server.ApplyMeta | server/index.js:62-63 | title and episode each take the payload's value exactly when it is a string; `curl` stays |
| Server.BroadcastExcept | server/index.js:57 | `socket.broadcast.emit`: the message is appended for every connected socket but the sender; the sender's and the departed sockets' outboxes stay |
| Server.HandleConnect | server/index.js:47-51 | a new socket gets a fresh id and an outbox holding only the `init_state` of the record; the record stays |
| Server.HandleCurl | server/index.js:54-58 | `curl` is stored and the value is relayed to every other connected socket; membership stays |
| Server.HandleMeta | server/index.js:61-66 | string fields of the payload are stored, `curl` stays, and the raw payload is relayed to every other connected socket |
| Server.HandleDisconnect | server/index.js:68-70 | the socket leaves the connected set; record and outboxes stay |
| Server.StartIsEmpty | server/index.js:40-44 | the record starts as three empty strings, with nobody connected |
| Server.ConnectSendsSnapshot | server/index.js:47-51 | a new socket gets exactly one `init_state` equal to the record; no other outbox and not the record changes |
| Server.CurlOverwrites | server/index.js:54-55 | `curl` becomes the payload, whatever it is; title and episode stay |
| Server.LastCurlWins | server/index.js:54-55 | after a run of `curl_update`s the last one's value is stored |
| Server.MetaMerge | server/index.js:61-63 | a field changes exactly when the payload's value is a string; `curl` never changes |
| Server.TitleOnlyKeepsEpisode | server/index.js:62-63 | a title-only payload leaves the episode |
| Server.UpdatesIdempotent | server/index.js:55-63 | applying the same `curl_update` or `meta_update` twice equals applying it once |
| Server.BroadcastSkipsSender | server/index.js:56-65 | the message is appended for every other connected socket; the sender's and the disconnected sockets' outboxes are unchanged |
| Server.MetaRelaysRawPayload | server/index.js:61-65 | `meta_update` relays the raw payload, not the merged record |
| Server.NonStringTitleRelayedNotStored | server/index.js:61-65 | a number as title is relayed but not stored |
| Server.RunKeepsOneSnapshotEach | server/index.js:47-71 | over any run, each socket's outbox starts with its one `init_state` and holds no other |
| Server.MembershipKeepsState | server/index.js:47-70 | connections and disconnections never change the record |
| Server.SnapshotAfterDisconnect | server/index.js:51-70 | after a disconnect, a new socket's snapshot still holds every update applied before |
| Server.Store.constructor | server/index.js:40-44 | the object starts as the initial machine |
| Server.Store.Broadcast | server/index.js:57 | the fan-out loop appends the message for every connected socket but the sender |
| Server.Store.OnConnection | server/index.js:47-51 | the in-place handler makes the `connection` step |
| Server.Store.OnCurlUpdate | server/index.js:54-58 | the in-place handler makes the `curl_update` step |
| Server.Store.OnMetaUpdate | server/index.js:61-66 | the in-place handler makes the `meta_update` step, field by field |
| Server.Store.OnDisconnect | server/index.js:68-70 | the in-place handler makes the `disconnect` step |
| Sync.HonestReceive | server/index.js:54-65 | a page that shows the record and takes in an update a page emitted shows the record as the server's handler leaves it |
| Sync.EditAgrees | client/src/App.jsx:97-113 | an edit on a page that shows the record emits a message of strings, and the page already shows the record as the server's handler will leave it |
| Sync.ActKeepsInStep | server/index.js:47-71 | one action (an open, an edit made while nothing is in flight, a handling, an arrival, a close) keeps the world in step: every connected page will show the record once its messages have arrived |
| Sync.QuietMirrors | server/index.js:47-71 | in step with nothing in flight, every connected page shows the record itself |
| Sync.ClientsStayInStep | server/index.js:47-71 | in any run from the start in which users type only while nothing is in flight, the world stays in step, and whenever nothing is in flight every connected page shows the record and can build its command |
| Sync.TitleReachesOthers | server/index.js:61-65 | a typed title is sent to every other page with both fields, not to the sender; on arrival the other page shows it, and a later snapshot holds it |
| Sync.CrossingEdits | server/index.js:61-65 | when two pages edit a name before the other's relay arrives, the server applies both payloads in the order it handled them, while each page applies only the other's payload on top of its own edit |
| Sync.RacingTitlesDiverge | server/index.js:57-65 | two titles typed at once leave the server and one page on one title and the other page on the other title, with nothing in flight |
| Sync.StaleEpisodeLosesTitle | client/src/App.jsx:103-113 | an episode typed before another page's title arrives carries the stale title: the server and the first page lose the new title, and the second page loses its own episode |
| Sync.NullTitleSplitsViews | server/index.js:62-63 | a `title: null` from another program is ignored by the server but taken by a page, which can then build no command |

## Left out

- HTTPS bootstrap, certificate reads, static files, the catch-all route, `server.listen` and `console.log` (server/index.js:1-37, 48, 69, 73-77): I/O with no bearing on the record.
- The socket.io transport beyond in-order delivery: reconnection, CORS, wire encoding (values are assumed to arrive unchanged) and the unchecked auth token (client/src/App.jsx:6-8).
- React rendering, hook scheduling and batching, and the clipboard button (client/src/App.jsx:55-62, 89-94, 115-152). The fields are a record updated one handler at a time; the derived command is a function of them (`Client.Command`).
- A `meta_update` payload that is not an object: `data.title` on `null` throws in the handler. Payloads are modelled as objects only.
- Numbers are integers: `NaN` (falsy) and fractions are not modelled in truthiness.
- Integer-like header names (which JavaScript lists first, in numeric order) and the name `__proto__` (whose assignment is dropped): the headers object is modelled as plain insertion order.
- Sync.ClientsStayInStep: proved only for runs in which each user types while no message is in flight. When edits cross, the pages need not agree with the server or with each other: `Sync.RacingTitlesDiverge` and `Sync.StaleEpisodeLosesTitle` exhibit a split and a lost edit. Both come from relaying to everyone but the sender and from sending whole `{title, episode}` payloads, which the code does on purpose.
- Messages a page had queued when it closes are dropped with it, and the socket.io acknowledgements and buffering on reconnect are not modelled.
- YtDlp.CookieOptionPresent: states only that a cookie string yields its option. A `-H 'Cookie: …'` header also yields an `--add-header "Cookie: …"` token, so the option is not tied to the cookie string in the other direction.
- Quote escaping inside tokens: the code does none, so the model does none.
- Worked examples of the parser on whole `curl` strings: the parser's properties are stated for all inputs instead.
