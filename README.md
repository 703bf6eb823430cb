# gh-webhook-tg, modelled in Dafny

A model of the decision and formatting core of a relay that receives GitHub
webhook deliveries over HTTP and forwards a summary to a Telegram chat, written
for the MarkdownV2 parse mode of the Telegram Bot API ("Formatting options").

- `strings.dfy` (module `Strings`): the ECMAScript string operations the relay
  uses: `includes`, `substring(0, n)`, the `${n}` rendering of a number, and
  character counting.
- `telegram.dfy` (module `Telegram`): `markdownEscape` and `markdownUrlEscape`.
  Each is a loop of `replaceAll` passes over a fixed list of characters
  (`ReplaceEach`). The lemmas say which single per-character map those passes
  amount to. `markdownEscape` puts one backslash before each of its 18 reserved
  characters. `markdownUrlEscape` as written turns `)` into `\\)` and `\` into
  `\\`. The module also gives lengths, fixed points, non-idempotence, the
  round trip through dropping the backslash before each reserved character,
  and how MarkdownV2 (where a backslash before a character with code 1 to 126
  escapes it) reads the output.
- `utils.dfy` (module `Utils`): `trimBody`, the 2048-character cap followed by a
  literal `...`.
- `handler.dfy` (module `Handler`): `handleRequest` as a pure function from a
  request to an `Outcome`. The request holds the method, the User-Agent,
  Content-Type and X-GitHub-Event headers, the path and a typed payload.
  `Forbidden` is the 403 response `403 Forbidden`. `Text(b)` is a 200 response
  with body `b` and no call to Telegram. `Send(m)` is the sendMessage call with
  text `m`. The eight message builders are functions. The push builder's
  `forEach` is the method `PushBody`, proved equal to `CommitLines`. The
  dispatch policy is stated once more as a table (`Filters`: event name to
  "always" or "only on action a"), and a lemma proves that `HandleRequest`
  follows it.

Where the code departs from its evident intent, the model follows the code:

- The guard at src/handler.ts:24 calls `ct.includes('application/json' || event != '' || pathName != '/webhook')`.
  The argument evaluates to `'application/json'`, so the event header and the
  path are never checked. The model checks only the method, the User-Agent
  prefix and the Content-Type substring (`GuardIgnoresEventAndPath`,
  `GuardLetsOtherPathsThrough`).
- MarkdownV2 needs one backslash before `)` in a link target; the URL escaper
  gives `a(b\\)` for `a(b)` (see Findings).
- `markdownEscape` does not escape `\`, so a backslash in user text escapes the
  character after it once Telegram reads the message (see Findings).
- A push gives one line per commit only when no commit field holds a line
  break, because commit messages keep their newlines
  (`PushBodyOneLinePerCommit`).

## Model

| member | source | states |
|---|---|---|
| `Strings.IncludesAt` | src/handler.ts:24 | `includes(s, sub)` holds exactly when some suffix of `s` starts with `sub` |
| `Strings.Take` | src/handler.ts:66 | `substring(0, n)` has length `min(|s|, n)` and is a prefix of `s` |
| `Strings.NatToDecimal` | src/handler.ts:83 | a number renders as a non-empty string of decimal digits with no leading zero |
| `Strings.DecimalRoundTrip` | src/handler.ts:182 | the rendered commit count reads back as the number of commits |
| `Telegram.ReplaceAll` | src/telegram.ts:30 | a `replaceAll` pass leaves text without the pattern character unchanged |
| `Telegram.ReplaceEach` | src/telegram.ts:29-31 | the `forEach` loop's result is one `replaceAll` pass per listed character, in list order |
| `Telegram.PassesAreOneMap` | src/telegram.ts:29-31 | if the list has no repeats and no pass after the first is for `\`, the passes equal the per-character map "listed character c becomes `\c`" |
| `Telegram.MarkdownEscape` | src/telegram.ts:8-33 | `markdownEscape` puts exactly one backslash before each of the 18 reserved characters and changes nothing else |
| `Telegram.MarkdownEscaped` | src/telegram.ts:8-33 | `markdownEscape` as a function: output length is input length plus the number of reserved characters; `MarkdownEscape` proves the loop equal to it |
| `Telegram.MarkdownEscapedUnchangedIff` | src/telegram.ts:29-32 | the output equals the input exactly when the input has no reserved character |
| `Telegram.EscapedStartsUnreserved` | src/telegram.ts:29-31 | escaped non-empty text never starts with a reserved character |
| `Telegram.UnescapeRoundTrip` | src/telegram.ts:29-31 | dropping a backslash only before a reserved character recovers the input, backslashes included, for any escape set without `\` |
| `Telegram.MarkdownEscapeRoundTrip` | src/telegram.ts:8-33 | dropping the backslash before each reserved character in `markdownEscape(t)` gives back `t` |
| `Telegram.MarkdownEscapeAsWrittenDropsBackslash` | src/telegram.ts:9-31 | `a\b` passes `markdownEscape` unchanged and MarkdownV2 reads it as `ab` |
| `Telegram.MarkdownEscapeFixed` | src/telegram.ts:8-33 | with a `\` pass added first, each reserved character and each `\` gets one backslash and MarkdownV2's reading of the output is the input |
| `Telegram.MarkdownEscapeNotIdempotent` | src/telegram.ts:29-31 | on text with a reserved character, escaping twice differs from escaping once |
| `Telegram.MarkdownUrlEscape` | src/telegram.ts:35-41 | `markdownUrlEscape` as written maps `)` to `\\)` and `\` to `\\` and keeps every other character |
| `Telegram.UrlPassesAsWritten` | src/telegram.ts:36-39 | the passes `)` then `\` equal that per-character map: the backslash inserted for `)` is doubled |
| `Telegram.MarkdownUrlEscaped` | src/telegram.ts:35-41 | `markdownUrlEscape` as a function: output length is input length plus 2 per `)` plus 1 per `\`; `MarkdownUrlEscape` proves the loop equal to it |
| `Telegram.MarkdownUrlUnchanged` | src/telegram.ts:36-40 | a URL is unchanged exactly when it holds neither `)` nor `\` |
| `Telegram.UrlEscapeAsWrittenMisreadsParen` | src/telegram.ts:36-39 | `a(b)` escapes to `a(b\\)`, which MarkdownV2 reads back as `a(b\)`, not `a(b)` |
| `Telegram.UrlReadBackLength` | src/telegram.ts:36-39 | MarkdownV2's reading of the escaped URL is one character longer than the URL per `)` |
| `Telegram.UrlEscapeAsWrittenMisreadsEveryParen` | src/telegram.ts:36-39 | every URL holding a `)` is read back as something other than itself |
| `Telegram.UnescapeAllRoundTrip` | src/telegram.ts:35-41 | when `\` is itself escaped and every escaped character has code 1 to 126, MarkdownV2's reading of backslashes recovers the input |
| `Telegram.MarkdownUrlEscapeFixed` | src/telegram.ts:35-41 | with the `\` pass first, `)` and `\` each get one backslash and the output reads back as the input |
| `Utils.TrimBody` | src/utils.ts:1-6 | text within 2048 characters is unchanged; otherwise the first 2048 characters are kept, followed by `...`; the result is at most 2051 long and begins with the first `min(|t|, 2048)` characters |
| `Utils.TrimBodyIdempotent` | src/utils.ts:2-5 | trimming twice equals trimming once |
| `Utils.TrimBodyFixedPoints` | src/utils.ts:2-5 | trimming leaves text unchanged exactly when it is within 2048 characters or is 2048 characters followed by `...` |
| `Handler.PassesGuard` | src/handler.ts:21-25 | the guard holds exactly when the method is `POST`, the User-Agent starts with `GitHub-Hookshot/` and `application/json` occurs somewhere in the Content-Type |
| `Handler.HandleRequest` | src/handler.ts:17-27 | the outcome is `Forbidden` exactly when the method is not `POST`, or the User-Agent lacks the `GitHub-Hookshot/` prefix, or the Content-Type lacks `application/json` |
| `Handler.GuardIgnoresEventAndPath` | src/handler.ts:21-27 | requests that agree on method, User-Agent and Content-Type are both forbidden or both not, whatever their event and path |
| `Handler.GuardLetsOtherPathsThrough` | src/handler.ts:21-27 | a well-formed POST with no event header to `/other` passes the guard and gets `request method: POST /other` |
| `Handler.ForeignAgentForbidden` | src/handler.ts:23 | a request with User-Agent `curl/7.0` is forbidden |
| `Handler.HandlePing` | src/handler.ts:53-58 | ping sends whatever the action, a message opening with `*New webhook for* [` (full template: `PingAlwaysSends`) |
| `Handler.HandleCommitComment` | src/handler.ts:60-69 | a commit comment sends whatever the action (template: `ItemEventsUseTable`, `ItemMessageParts`) |
| `Handler.HandleDiscussion` | src/handler.ts:71-85 | sends exactly when the action is `created`, otherwise answers `OK` (template: `ItemEventsUseTable`) |
| `Handler.HandleDiscussionComment` | src/handler.ts:87-101 | sends exactly when the action is `created`, otherwise answers `OK` (template: `ItemEventsUseTable`) |
| `Handler.HandleIssueComment` | src/handler.ts:103-116 | sends exactly when the action is `created`, otherwise answers `OK` (template: `ItemEventsUseTable`) |
| `Handler.HandleIssues` | src/handler.ts:118-140 | sends exactly when the action is `opened`, otherwise answers `OK` (template: `ItemEventsUseTable`) |
| `Handler.HandlePR` | src/handler.ts:142-165 | sends exactly when the action is `opened`, otherwise answers `OK` (template: `ItemEventsUseTable`) |
| `Handler.HandlePush` | src/handler.ts:167-184 | a push sends whatever the action, and the message ends with the commit lines (`PushMessageParts`, `PushBody`) |
| `Handler.CommitLine` | src/handler.ts:174-179 | a commit line opens with `[` and ends with a newline |
| `Handler.CommitLines` | src/handler.ts:173-180 | the push body is empty exactly when there are no commits, and otherwise ends with a newline |
| `Handler.HandleRequestFollowsFilters` | src/handler.ts:31-50 | past the guard: the diagnostic text comes exactly for events outside the eight; for the eight, a message is sent exactly when the event's filter admits the action (`created` for discussion, discussion_comment and issue_comment, `opened` for issues and pull_request, any action for ping, commit_comment and push), and otherwise the answer is `OK` |
| `Handler.ItemEventsUseTable` | src/handler.ts:60-165 | each of the six item events sends the shared template filled from the headline, link URL, actor and body field that the tables name for it, or answers `OK` |
| `Handler.ItemMessageParts` | src/handler.ts:60-165 | an item message opens with its headline and the escaped repository name; it ends with the URL-escaped item link, the actor's name and profile URL (both through `markdownEscape`) and the trimmed escaped body of at most 2051 characters, ending in `...` when cut |
| `Handler.PingAlwaysSends` | src/handler.ts:53-58 | ping sends `*New webhook for* [esc(name)](urlEsc(html_url))` whatever the action |
| `Handler.PushBody` | src/handler.ts:173-180 | the `commits.forEach` loop builds the concatenation of the commit lines |
| `Handler.CommitLinesConcat` | src/handler.ts:173-180 | the body of `a + b` is the body of `a` followed by the body of `b`: lines stay in input order |
| `Handler.CommitLineShape` | src/handler.ts:175-179 | each commit line opens with `[`, at most 7 characters of the escaped commit id and a link to the URL-escaped commit URL, and ends with a newline |
| `Handler.CommitLineOneBreak` | src/handler.ts:174-179 | the line of a commit whose fields hold no line break contains exactly one newline |
| `Handler.PushBodyOneLinePerCommit` | src/handler.ts:173-180 | when no commit field holds a line break, the body has exactly one newline per commit and ends with one |
| `Handler.PushMessageParts` | src/handler.ts:182 | a push always sends; the message opens with `[<commit count> new commit](<URL-escaped compare link>) *to ` and ends with the commit lines |

## Left out

- HTTP plumbing: `Request`, `Response`, `request.json()`, `new URL(url).pathname` and `fetch` are I/O. The request is given as its method, headers, path and typed payload, and the outbound call is the `Send` outcome.
- `buildTelegramUrl` (src/telegram.ts:4-6): it reads the process-wide `BOT_TOKEN` and `CHAT_ID` and calls `encodeURIComponent` (percent-encoding per section 2.1 of RFC 3986), which is not part of this model.
- Telegram's reply to `Send`, which the relay returns as its own response, is outside the model.
- Untyped payload access: the payload is one record with every field some handler reads. A missing field, which makes the source throw, is not modelled. An absent `action` behaves like any action other than `created`/`opened`.
- Malformed JSON bodies, which make `request.json()` throw, are not modelled.
- `async`/`Promise` structure: each request is handled on its own, with no shared state.
- String semantics: strings are sequences of characters. JavaScript counts UTF-16 code units, so the cuts at 2048 (`trimBody`) and at 7 (commit ids) can split a surrogate pair in the source. The model does not show that.
- Numbers: `${number}` is modelled for non-negative integers only (`NatToDecimal`).
- Handler.HandleRequest: the 403 and 200 statuses and the `403 Forbidden` body are named by the `Forbidden` and `Text` outcomes rather than modelled as response objects.
- Telegram.ReplaceAll: modelled only for the one-character patterns and the `$`-free replacements the escapers use.

## Findings

| source | as written | input that shows it | evidently intended | confidence | as-written member | corrected member |
|---|---|---|---|---|---|---|
| src/telegram.ts:9-31 | `\` is not in the escape list, so a backslash in user text stays bare | `a\b` is sent as `a\b`, which MarkdownV2 reads as `ab`; `\_` becomes `\\_`, leaving the `_` unescaped | each reserved character and each `\` preceded by one backslash: add a `\` pass first | medium; not executed | `Telegram.MarkdownEscapeAsWrittenDropsBackslash` | `Telegram.MarkdownEscapeFixed` |
| src/telegram.ts:36-39 | the `)` pass runs before the `\` pass, so the backslash inserted before `)` is doubled: `)` becomes `\\)` | `https://x.com/a(b)` becomes `https://x.com/a(b\\)`. MarkdownV2 reads `\\` as a literal backslash, so the `)` is left unescaped and closes the link early | each `)` and each `\` preceded by one backslash, e.g. `https://x.com/a(b\)`: run the `\` pass first | high; not executed | `Telegram.UrlEscapeAsWrittenMisreadsParen` | `Telegram.MarkdownUrlEscapeFixed` |

The dispatcher in `handler.dfy` keeps both escapers as written, so its
messages are the ones the relay actually sends. `Telegram.MarkdownEscapeFixed`
and `Telegram.MarkdownUrlEscapeFixed` are proved to give exactly one backslash
per escaped character, and to read back as their input. Both facts come from
the general lemmas `PassesAreOneMap` and `UnescapeAllRoundTrip` that also
cover the escapers as written. `Telegram.UrlEscapeAsWrittenMisreadsEveryParen`
extends the URL counterexample to every URL holding a `)`.
