/** Request guard and event dispatch of the webhook relay (src/handler.ts).
    The HTTP plumbing is replaced by an outcome value: `Forbidden` is the
    403 response with body `403 Forbidden`, `Text(b)` a 200 response with
    body `b` and no call to Telegram, and `Send(m)` the call to Telegram's
    sendMessage with message text `m`, whose reply becomes the response. */
module Handler {
  import opened Strings
  import opened Telegram
  import opened Utils

  datatype Option<T> = None | Some(value: T)

  // ---------------------------------------------------------------------
  // The request

  datatype User = User(login: string, htmlUrl: string)
  datatype Repository = Repository(name: string, htmlUrl: string)
  datatype Comment = Comment(htmlUrl: string, user: User, body: string, commitId: string)
  datatype Category = Category(name: string)
  datatype Discussion = Discussion(
    htmlUrl: string, number: nat, user: User, category: Category, title: string, body: string)
  datatype Issue = Issue(htmlUrl: string, number: nat, title: string, user: User, body: string)
  datatype PullRequest = PullRequest(htmlUrl: string, title: string, user: User, body: string)
  datatype Author = Author(name: string)
  datatype Commit = Commit(id: string, url: string, message: string, author: Author)

  /** The fields of the webhook's JSON body that some handler reads; each
      handler reads only the ones that belong to its event. */
  datatype Payload = Payload(
    action: string,
    repository: Repository,
    comment: Comment,
    discussion: Discussion,
    issue: Issue,
    pullRequest: PullRequest,
    ref: string,
    commits: seq<Commit>,
    compare: string)

  /** An inbound request: its method, the three headers the guard and the
      dispatcher read (`None` when absent), the URL's path, and the body. */
  datatype Request = Request(
    httpMethod: string,
    userAgent: Option<string>,
    contentType: Option<string>,
    event: Option<string>,
    path: string,
    data: Payload)

  datatype Outcome = Forbidden | Text(body: string) | Send(message: string)

  const EventPing := "ping"
  const EventCommitComment := "commit_comment"
  const EventDiscussion := "discussion"
  const EventDiscussionComment := "discussion_comment"
  const EventIssueComment := "issue_comment"
  const EventIssues := "issues"
  const EventPR := "pull_request"
  const EventPush := "push"

  const HookAgentPrefix := "GitHub-Hookshot/"
  const JsonType := "application/json"

  /** `headers.get(name) || ''`. */
  function Header(h: Option<string>): string
  {
    if h.Some? then h.value else ""
  }

  /** The guard as the source evaluates it. Its third operand is
      `ct.includes('application/json' || event != '' || pathName != '/webhook')`,
      whose argument is the first, truthy, string: the event header and the
      path are never examined. */
  predicate PassesGuard(req: Request): (b: bool)
    ensures b <==> (req.httpMethod == "POST" && HookAgentPrefix <= Header(req.userAgent)
      && exists i :: 0 <= i <= |Header(req.contentType)| && JsonType <= Header(req.contentType)[i..])
  {
    IncludesAt(Header(req.contentType), JsonType);
    req.httpMethod == "POST"
    && HookAgentPrefix <= Header(req.userAgent)
    && Includes(Header(req.contentType), JsonType)
  }

  // ---------------------------------------------------------------------
  // Dispatch

  /** `handleRequest`: the guard, then the switch on `X-GitHub-Event`. */
  function HandleRequest(req: Request): (o: Outcome)
    ensures o.Forbidden? <==> !PassesGuard(req)
  {
    if !PassesGuard(req) then Forbidden
    else
      var event, data := Header(req.event), req.data;
      if event == EventPing then HandlePing(data)
      else if event == EventCommitComment then HandleCommitComment(data)
      else if event == EventDiscussion then HandleDiscussion(data)
      else if event == EventDiscussionComment then HandleDiscussionComment(data)
      else if event == EventIssueComment then HandleIssueComment(data)
      else if event == EventIssues then HandleIssues(data)
      else if event == EventPR then HandlePR(data)
      else if event == EventPush then HandlePush(data)
      else Text(Diagnostic(req))
  }

  // ---------------------------------------------------------------------
  // Message builders

  /** The template the six item events share: a bold headline, a link to the
      item, a by-line linking the actor, a blank line and the trimmed body. */
  function ItemMessage(headline: string, linkText: string, url: string, sender: User, body: string): string
  {
    "*" + headline + "* [" + linkText + ItemTail(url, sender, body)
  }

  /** The part of the item template after the link text. */
  function ItemTail(url: string, sender: User, body: string): string
  {
    "](" + MarkdownUrlEscaped(url) + ")\n*by* [" + MarkdownEscaped(sender.login)
    + "](" + MarkdownEscaped(sender.htmlUrl) + ")\n\n" + TrimBody(MarkdownEscaped(body))
  }

  /** Ping sends whatever the action. */
  function HandlePing(data: Payload): (o: Outcome)
    ensures o.Send? && "*New webhook for* [" <= o.message
  {
    Send("*New webhook for* [" + MarkdownEscaped(data.repository.name) + "]("
      + MarkdownUrlEscaped(data.repository.htmlUrl) + ")")
  }

  /** Link text of the commit comment template: `repo` and the first seven
      characters of the escaped commit id. */
  function CommitCommentLinkText(repoName: string, c: Comment): string
  {
    MarkdownEscaped(repoName) + " " + Take(MarkdownEscaped(c.commitId), 7)
  }

  /** A commit comment sends whatever the action. */
  function HandleCommitComment(data: Payload): (o: Outcome)
    ensures o.Send?
  {
    Send(ItemMessage("New commit comment for", CommitCommentLinkText(data.repository.name, data.comment),
      data.comment.htmlUrl, data.comment.user, data.comment.body))
  }

  /** Link text of both discussion templates: `repo\#n \[category\] title`. */
  function DiscussionLinkText(repoName: string, d: Discussion): string
  {
    MarkdownEscaped(repoName) + "\\#" + NatToDecimal(d.number)
    + " \\[" + MarkdownEscaped(d.category.name) + "\\] " + MarkdownEscaped(d.title)
  }

  function HandleDiscussion(data: Payload): (o: Outcome)
    ensures o.Send? <==> data.action == "created"
    ensures !o.Send? ==> o == Text("OK")
  {
    if data.action != "created" then Text("OK")
    else
      Send(ItemMessage("New discussion for", DiscussionLinkText(data.repository.name, data.discussion),
        data.discussion.htmlUrl, data.discussion.user, data.discussion.body))
  }

  function HandleDiscussionComment(data: Payload): (o: Outcome)
    ensures o.Send? <==> data.action == "created"
    ensures !o.Send? ==> o == Text("OK")
  {
    if data.action != "created" then Text("OK")
    else
      Send(ItemMessage("New comment for discussion", DiscussionLinkText(data.repository.name, data.discussion),
        data.comment.htmlUrl, data.comment.user, data.comment.body))
  }

  /** Link text of the issue templates: `repo\#n title`. */
  function IssueLinkText(repoName: string, i: Issue): string
  {
    MarkdownEscaped(repoName) + "\\#" + NatToDecimal(i.number) + " " + MarkdownEscaped(i.title)
  }

  function HandleIssueComment(data: Payload): (o: Outcome)
    ensures o.Send? <==> data.action == "created"
    ensures !o.Send? ==> o == Text("OK")
  {
    if data.action != "created" then Text("OK")
    else
      Send(ItemMessage("New comment for issue", IssueLinkText(data.repository.name, data.issue),
        data.issue.htmlUrl, data.comment.user, data.comment.body))
  }

  /** The `switch (action)` of `handleIssues`: only `opened` has a text. */
  function IssuesActionText(action: string): Option<string>
  {
    if action == "opened" then Some("New issue") else None
  }

  function HandleIssues(data: Payload): (o: Outcome)
    ensures o.Send? <==> data.action == "opened"
    ensures !o.Send? ==> o == Text("OK")
  {
    match IssuesActionText(data.action)
    case None => Text("OK")
    case Some(actionText) =>
      Send(ItemMessage(actionText + " for", IssueLinkText(data.repository.name, data.issue),
        data.issue.htmlUrl, data.issue.user, data.issue.body))
  }

  /** The `switch (true)` of `handlePR`: only `opened` has a text. */
  function PRActionText(action: string): Option<string>
  {
    if action == "opened" then Some("New Pull Request") else None
  }

  /** Link text of the pull request template: `repo title`. */
  function PRLinkText(repoName: string, pr: PullRequest): string
  {
    MarkdownEscaped(repoName) + " " + MarkdownEscaped(pr.title)
  }

  function HandlePR(data: Payload): (o: Outcome)
    ensures o.Send? <==> data.action == "opened"
    ensures !o.Send? ==> o == Text("OK")
  {
    match PRActionText(data.action)
    case None => Text("OK")
    case Some(actionText) =>
      Send(ItemMessage(actionText + " for", PRLinkText(data.repository.name, data.pullRequest),
        data.pullRequest.htmlUrl, data.pullRequest.user, data.pullRequest.body))
  }

  /** One line of the push summary: short id linking the commit, message, author. */
  function CommitLine(c: Commit): (line: string)
    ensures "[" <= line && line[|line| - 1] == '\n'
  {
    "[" + Take(MarkdownEscaped(c.id), 7) + "](" + MarkdownUrlEscaped(c.url) + "): "
    + MarkdownEscaped(c.message) + " by " + MarkdownEscaped(c.author.name) + "\n"
  }

  /** The push body after the loop has appended the lines of `commits`. */
  function CommitLines(commits: seq<Commit>): (body: string)
    ensures body == [] <==> commits == []
    ensures body != [] ==> body[|body| - 1] == '\n'
    decreases |commits|
  {
    if commits == [] then ""
    else CommitLines(commits[..|commits| - 1]) + CommitLine(commits[|commits| - 1])
  }

  /** A push sends whatever the action, and its message ends with the commit lines. */
  function HandlePush(data: Payload): (o: Outcome)
    ensures o.Send? && EndsWith(o.message, CommitLines(data.commits))
  {
    Send(PushHead(data) + CommitLines(data.commits))
  }

  /** The push message up to its commit lines: the commit count linking the
      comparison, the repository and the ref. */
  function PushHead(data: Payload): string
  {
    "[" + NatToDecimal(|data.commits|) + " new commit](" + MarkdownUrlEscaped(data.compare) + ") *to "
    + MarkdownEscaped(data.repository.name) + " " + MarkdownEscaped(data.ref) + "*\n\n"
  }

  /** The `commits.forEach` of `handlePush`: `body +=` one line per commit. */
  method PushBody(commits: seq<Commit>) returns (body: string)
    ensures body == CommitLines(commits)
  {
    body := "";
    for i := 0 to |commits|
      invariant body == CommitLines(commits[..i])
    {
      var commit := commits[i];
      var commitId := MarkdownEscape(commit.id);
      var commitUrl := MarkdownUrlEscape(commit.url);
      var commitMsg := MarkdownEscape(commit.message);
      var committer := MarkdownEscape(commit.author.name);
      var line := "[" + Take(commitId, 7) + "](" + commitUrl + "): " + commitMsg + " by " + committer + "\n";
      assert line == CommitLine(commit);
      body := body + line;
      assert commits[..i + 1][..i] == commits[..i];
    }
    assert commits[..|commits|] == commits;
  }

  // ---------------------------------------------------------------------
  // The dispatch policy, stated as a table

  /** Which actions of an event lead to a message. */
  datatype Filter = Always | OnlyOn(action: string)

  predicate Admits(f: Filter, action: string)
  {
    f.Always? || f.action == action
  }

  const Filters: map<string, Filter> := map[
    "ping" := Always,
    "commit_comment" := Always,
    "discussion" := OnlyOn("created"),
    "discussion_comment" := OnlyOn("created"),
    "issue_comment" := OnlyOn("created"),
    "issues" := OnlyOn("opened"),
    "pull_request" := OnlyOn("opened"),
    "push" := Always]

  function Diagnostic(req: Request): string
  {
    "request method: " + req.httpMethod + " " + req.path
  }

  /** Past the guard, the outcome follows the table: an event outside it
      gets the diagnostic text, an event in it sends exactly when its
      filter admits the payload's action and otherwise answers `OK`. */
  lemma {:induction false} HandleRequestFollowsFilters(req: Request)
    requires PassesGuard(req)
    ensures Header(req.event) !in Filters <==> HandleRequest(req) == Text(Diagnostic(req))
    ensures Header(req.event) in Filters ==>
      (HandleRequest(req).Send? <==> Admits(Filters[Header(req.event)], req.data.action))
    ensures Header(req.event) in Filters && !Admits(Filters[Header(req.event)], req.data.action) ==>
      HandleRequest(req) == Text("OK")
  {
  }

  /** The guard reads only the method, User-Agent and Content-Type: two
      requests that agree on those are both rejected or both let through,
      whatever their event header and path. */
  lemma {:induction false} GuardIgnoresEventAndPath(r1: Request, r2: Request)
    requires r1.httpMethod == r2.httpMethod && r1.userAgent == r2.userAgent && r1.contentType == r2.contentType
    ensures HandleRequest(r1) == Forbidden <==> HandleRequest(r2) == Forbidden
  {
  }

  /** A request with no event header, sent to a path other than `/webhook`,
      passes the guard and gets the diagnostic text. */
  lemma {:induction false} GuardLetsOtherPathsThrough(data: Payload)
    ensures HandleRequest(Request("POST", Some("GitHub-Hookshot/abc"), Some(JsonType), None, "/other", data))
      == Text("request method: POST /other")
  {
  }

  /** A request whose User-Agent is not GitHub's hook agent is refused. */
  lemma {:induction false} ForeignAgentForbidden(req: Request)
    requires req.userAgent == Some("curl/7.0")
    ensures HandleRequest(req) == Forbidden
  {
  }

  // ---------------------------------------------------------------------
  // What each item event's message is made of

  const ItemEvents: set<string> :=
    {"commit_comment", "discussion", "discussion_comment", "issue_comment", "issues", "pull_request"}

  /** The bold words that open each item event's message. */
  function Headline(event: string): string
  {
    if event == "commit_comment" then "New commit comment for"
    else if event == "discussion" then "New discussion for"
    else if event == "discussion_comment" then "New comment for discussion"
    else if event == "issue_comment" then "New comment for issue"
    else if event == "issues" then "New issue for"
    else "New Pull Request for"
  }

  /** The payload field the message links to. */
  function ItemUrl(event: string, d: Payload): string
  {
    if event == "commit_comment" || event == "discussion_comment" then d.comment.htmlUrl
    else if event == "discussion" then d.discussion.htmlUrl
    else if event == "issue_comment" || event == "issues" then d.issue.htmlUrl
    else d.pullRequest.htmlUrl
  }

  /** The actor the by-line names. */
  function Sender(event: string, d: Payload): User
  {
    if event == "commit_comment" || event == "discussion_comment" || event == "issue_comment" then d.comment.user
    else if event == "discussion" then d.discussion.user
    else if event == "issues" then d.issue.user
    else d.pullRequest.user
  }

  /** The payload field the message's body comes from. */
  function RawBody(event: string, d: Payload): string
  {
    if event == "commit_comment" || event == "discussion_comment" || event == "issue_comment" then d.comment.body
    else if event == "discussion" then d.discussion.body
    else if event == "issues" then d.issue.body
    else d.pullRequest.body
  }

  predicate EndsWith(s: string, suffix: string)
  {
    |suffix| <= |s| && s[|s| - |suffix|..] == suffix
  }

  lemma {:induction false} EndsWithConcat(a: string, b: string)
    ensures EndsWith(a + b, b)
  {
  }

  /** The link text of each item event: the escaped repository name, then
      the item's identification. */
  function LinkText(event: string, d: Payload): string
  {
    if event == "commit_comment" then CommitCommentLinkText(d.repository.name, d.comment)
    else if event == "discussion" || event == "discussion_comment" then
      DiscussionLinkText(d.repository.name, d.discussion)
    else if event == "issue_comment" || event == "issues" then
      IssueLinkText(d.repository.name, d.issue)
    else PRLinkText(d.repository.name, d.pullRequest)
  }

  /** Past the guard, every item event either answers `OK` or sends the
      shared template filled from the fields the tables above name. */
  lemma {:induction false} ItemEventsUseTable(req: Request)
    requires PassesGuard(req) && Header(req.event) in ItemEvents
    ensures var e, d := Header(req.event), req.data;
      HandleRequest(req) ==
        if Admits(Filters[e], d.action)
        then Send(ItemMessage(Headline(e), LinkText(e, d), ItemUrl(e, d), Sender(e, d), RawBody(e, d)))
        else Text("OK")
  {
    var e := Header(req.event);
    if e == EventIssues {
      assert "New issue" + " for" == Headline(e);
    } else if e == EventPR {
      assert "New Pull Request" + " for" == Headline(e);
    }
  }

  lemma {:induction false} PrefixThroughConcat(p: string, a: string, b: string, t: string)
    requires a <= b
    ensures p + a <= p + b + t
  {
  }

  /** A message sent for an item event opens with the event's headline and
      the escaped repository name, and closes with the link target (through
      the URL escaper), the actor's name and profile URL (both through the
      Markdown escaper) and the body, escaped and then trimmed: at most 2051
      characters, ending in a literal `...` when the escaped body was cut. */
  lemma {:induction false} ItemMessageParts(req: Request)
    requires PassesGuard(req) && Header(req.event) in ItemEvents && HandleRequest(req).Send?
    ensures var e, d, m := Header(req.event), req.data, HandleRequest(req).message;
      var segment := TrimBody(MarkdownEscaped(RawBody(e, d)));
      && "*" + Headline(e) + "* [" + MarkdownEscaped(d.repository.name) <= m
      && EndsWith(m, "](" + MarkdownUrlEscaped(ItemUrl(e, d)) + ")\n*by* [" + MarkdownEscaped(Sender(e, d).login)
           + "](" + MarkdownEscaped(Sender(e, d).htmlUrl) + ")\n\n" + segment)
      && |segment| <= BodyLimit + |Ellipsis|
      && (|MarkdownEscaped(RawBody(e, d))| > BodyLimit ==> EndsWith(m, Ellipsis))
  {
    var e, d, m := Header(req.event), req.data, HandleRequest(req).message;
    ItemEventsUseTable(req);
    var head := "*" + Headline(e) + "* [";
    var linkText := LinkText(e, d);
    var tail := ItemTail(ItemUrl(e, d), Sender(e, d), RawBody(e, d));
    assert m == head + linkText + tail;
    EndsWithConcat(head + linkText, tail);
    assert MarkdownEscaped(d.repository.name) <= linkText;
    PrefixThroughConcat(head, MarkdownEscaped(d.repository.name), linkText, tail);
    var segment := TrimBody(MarkdownEscaped(RawBody(e, d)));
    if |MarkdownEscaped(RawBody(e, d))| > BodyLimit {
      EndsWithTrans(m, tail, segment, Ellipsis);
    }
  }

  lemma {:induction false} EndsWithTrans(m: string, tail: string, segment: string, e: string)
    requires EndsWith(m, tail) && EndsWith(tail, segment) && EndsWith(segment, e)
    ensures EndsWith(m, e)
  {
  }

  // ---------------------------------------------------------------------
  // The push summary

  /** The body holds the commits' lines in input order. */
  lemma {:induction false} CommitLinesConcat(a: seq<Commit>, b: seq<Commit>)
    ensures CommitLines(a + b) == CommitLines(a) + CommitLines(b)
    decreases |b|
  {
    if b == [] {
      assert a + b == a;
      assert CommitLines(b) == [];
    } else {
      var init, last := b[..|b| - 1], b[|b| - 1];
      var ab := a + b;
      assert ab[..|ab| - 1] == a + init;
      assert ab[|ab| - 1] == last;
      CommitLinesLast(ab);
      CommitLinesLast(b);
      CommitLinesConcat(a, init);
      ConcatAssoc(CommitLines(a), CommitLines(init), CommitLine(last));
    }
  }

  /** Unfolds `CommitLines` once at its last commit. */
  lemma {:induction false} CommitLinesLast(cs: seq<Commit>)
    requires cs != []
    ensures CommitLines(cs) == CommitLines(cs[..|cs| - 1]) + CommitLine(cs[|cs| - 1])
  {
  }

  /** Each commit's line opens with `[` and at most seven characters of the
      escaped commit id, links to the URL-escaped commit URL, and ends with
      a newline. */
  lemma {:induction false} CommitLineShape(c: Commit)
    ensures var line := CommitLine(c);
      && "[" + Take(MarkdownEscaped(c.id), 7) <= line
      && "[" + Take(MarkdownEscaped(c.id), 7) + "](" + MarkdownUrlEscaped(c.url) + "): " <= line
      && |Take(MarkdownEscaped(c.id), 7)| <= 7
      && line != [] && line[|line| - 1] == '\n'
  {
  }

  lemma {:induction false} EscapingAddsNoNewline(s: string)
    ensures CountIn(MarkdownEscaped(s), ['\n']) == CountIn(s, ['\n'])
  {
    EscapedKeepsCount(s, MarkdownReserved, ['\n']);
  }

  lemma {:induction false} UrlEscapingAddsNoNewline(s: string)
    ensures CountIn(MarkdownUrlEscaped(s), ['\n']) == CountIn(s, ['\n'])
  {
    if s != [] {
      UrlEscapingAddsNoNewline(s[1..]);
      var c := UrlCharAsWritten(s[0]);
      CountInConcat(c, MarkdownUrlEscaped(s[1..]), ['\n']);
      CountInZero(c, ['\n']);
      CountInZero([s[0]], ['\n']);
      assert CountIn(s, ['\n']) == CountIn([s[0]], ['\n']) + CountIn(s[1..], ['\n']) by {
        assert s == [s[0]] + s[1..];
        CountInConcat([s[0]], s[1..], ['\n']);
      }
    }
  }

  /** A commit whose fields hold no line break. */
  predicate SingleLine(c: Commit)
  {
    CountIn(c.id, ['\n']) == 0 && CountIn(c.url, ['\n']) == 0
    && CountIn(c.message, ['\n']) == 0 && CountIn(c.author.name, ['\n']) == 0
  }

  /** The line of a single-line commit holds exactly one line break, its last character. */
  lemma {:induction false} CommitLineOneBreak(c: Commit)
    requires SingleLine(c)
    ensures CountIn(CommitLine(c), ['\n']) == 1
  {
    var id := Take(MarkdownEscaped(c.id), 7);
    EscapingAddsNoNewline(c.id);
    EscapingAddsNoNewline(c.message);
    EscapingAddsNoNewline(c.author.name);
    UrlEscapingAddsNoNewline(c.url);
    var esc := MarkdownEscaped(c.id);
    assert esc == id + esc[|id|..];
    CountInConcat(id, esc[|id|..], ['\n']);
    var a := "[" + id;
    var b := a + "](";
    var b2 := b + MarkdownUrlEscaped(c.url);
    var b3 := b2 + "): ";
    var b4 := b3 + MarkdownEscaped(c.message);
    var b5 := b4 + " by ";
    var b6 := b5 + MarkdownEscaped(c.author.name);
    CountInConcat("[", id, ['\n']);
    CountInConcat(a, "](", ['\n']);
    CountInConcat(b, MarkdownUrlEscaped(c.url), ['\n']);
    CountInConcat(b2, "): ", ['\n']);
    CountInConcat(b3, MarkdownEscaped(c.message), ['\n']);
    CountInConcat(b4, " by ", ['\n']);
    CountInConcat(b5, MarkdownEscaped(c.author.name), ['\n']);
    CountInConcat(b6, "\n", ['\n']);
    assert CommitLine(c) == b6 + "\n";
  }

  /** When no commit field holds a line break, the push body has exactly one
      newline-terminated line per commit. */
  lemma {:induction false} PushBodyOneLinePerCommit(commits: seq<Commit>)
    requires forall i :: 0 <= i < |commits| ==> SingleLine(commits[i])
    ensures var body := CommitLines(commits);
      CountIn(body, ['\n']) == |commits| && (commits != [] ==> body[|body| - 1] == '\n')
    decreases |commits|
  {
    if commits != [] {
      var init, last := commits[..|commits| - 1], commits[|commits| - 1];
      PushBodyOneLinePerCommit(init);
      CommitLineOneBreak(last);
      CommitLineShape(last);
      CountInConcat(CommitLines(init), CommitLine(last), ['\n']);
    }
  }

  /** The push message opens with the number of commits and closes with the
      commits' lines. */
  lemma {:induction false} PushMessageParts(req: Request)
    requires PassesGuard(req) && Header(req.event) == EventPush
    ensures HandleRequest(req).Send?
    ensures var m, d := HandleRequest(req).message, req.data;
      && "[" + NatToDecimal(|d.commits|) + " new commit](" + MarkdownUrlEscaped(d.compare) + ") *to " <= m
      && EndsWith(m, CommitLines(d.commits))
  {
  }

  // ---------------------------------------------------------------------
  // Ping

  /** Ping's message links the escaped repository name to its escaped URL,
      whatever the action. */
  lemma {:induction false} PingAlwaysSends(req: Request)
    requires PassesGuard(req) && Header(req.event) == EventPing
    ensures HandleRequest(req) == Send("*New webhook for* [" + MarkdownEscaped(req.data.repository.name)
      + "](" + MarkdownUrlEscaped(req.data.repository.htmlUrl) + ")")
  {
  }
}
