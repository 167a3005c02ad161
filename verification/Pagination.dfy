/**
  Complete collection of paginated inventories from a server that may answer anything and logs what it is asked.
 */
module Pagination {
  import opened Options
  import opened Results

  /**
    A value found where a continuation token is expected, with the text it turns into. Text compares by value, and so
    does a number, whose identity is 0; each parsed array or object is only equal to itself, and an array of one text
    turns into that text.
   */
  datatype Token = Text(text: string) | Other(shown: string, identity: nat)

  datatype Field = Undefined | Null | Present(token: Token)

  datatype Answer<T> =
    | Failure
    | Page(wellShaped: bool, items: seq<T>, next: Field)

  /** What one answer means for the loop. */
  datatype Step = Stop | Continue(token: Token) | Bad

  /** The token as it appears in the next request. */
  function OnWire(t: Token): string {
    match t
    case Text(text) => text
    case Other(shown, _) => shown
  }

  /** A listing endpoint: its k-th answer is arbitrary, and every request it gets stays in its log. */
  class Server<T> {
    const answers: nat -> Answer<T>
    var asked: seq<Option<Token>>

    constructor (a: nat -> Answer<T>)
      ensures answers == a && asked == []
    {
      answers, asked := a, [];
    }

    method Fetch(page: Option<Token>) returns (answer: Answer<T>)
      modifies this
      ensures asked == old(asked) + [page] && answer == answers(|old(asked)|)
    {
      answer := answers(|asked|);
      asked := asked + [page];
    }

    /** The answers from the n-th on. */
    function From(n: nat): nat -> Answer<T> {
      (k: nat) => answers(n + k)
    }
  }

  ghost predicate Distinct(tokens: seq<Token>) {
    forall k, m :: 0 <= k < m < |tokens| ==> tokens[k] != tokens[m]
  }

  ghost predicate NamesAt(steps: nat -> Step, tokens: seq<Token>, k: nat)
    requires k < |tokens|
  {
    steps(k) == Continue(tokens[k])
  }

  /** The first answers name these tokens, none twice. */
  ghost predicate Chain(steps: nat -> Step, tokens: seq<Token>) {
    Distinct(tokens) && forall k: nat :: k < |tokens| ==> NamesAt(steps, tokens, k)
  }

  /** The answer after the last token ends the chain. */
  ghost predicate Complete(steps: nat -> Step, tokens: seq<Token>) {
    Chain(steps, tokens) && steps(|tokens|).Stop?
  }

  lemma ChainsAgree(steps: nat -> Step, tokens: seq<Token>, others: seq<Token>)
    requires Chain(steps, tokens) && Chain(steps, others) && |tokens| <= |others|
    ensures tokens == others[..|tokens|]
  {
    forall k: nat | k < |tokens| ensures tokens[k] == others[k] {
      assert NamesAt(steps, tokens, k) && NamesAt(steps, others, k);
    }
  }

  /** A chain that neither ends nor names a fresh token cannot be completed, nor can a shorter one. */
  lemma DeadEnd(steps: nat -> Step, tokens: seq<Token>, others: seq<Token>)
    requires Chain(steps, tokens) && Chain(steps, others)
    requires |others| < |tokens| || steps(|tokens|).Bad? ||
              (steps(|tokens|).Continue? && steps(|tokens|).token in tokens)
    ensures !steps(|others|).Stop?
  {
    LaterIsFresh(others);
    if |others| < |tokens| {
      assert NamesAt(steps, tokens, |others|);
    } else {
      ChainsAgree(steps, tokens, others);
      assert |others| > |tokens| ==> NamesAt(steps, others, |tokens|);
    }
  }

  lemma NeverComplete(steps: nat -> Step, tokens: seq<Token>)
    requires Chain(steps, tokens)
    requires steps(|tokens|).Bad? || (steps(|tokens|).Continue? && steps(|tokens|).token in tokens)
    ensures forall ts :: !Complete(steps, ts)
  {
    forall ts | Chain(steps, ts) ensures !steps(|ts|).Stop? {
      DeadEnd(steps, tokens, ts);
    }
  }

  lemma NotCompleteBefore(steps: nat -> Step, tokens: seq<Token>)
    requires Chain(steps, tokens)
    ensures forall ts :: Complete(steps, ts) ==> |ts| >= |tokens|
  {
    forall ts | Complete(steps, ts) ensures |ts| >= |tokens| {
      if |ts| < |tokens| {
        DeadEnd(steps, tokens, ts);
      }
    }
  }

  lemma Completed(steps: nat -> Step, tokens: seq<Token>)
    requires Chain(steps, tokens) && steps(|tokens|).Stop?
    ensures Complete(steps, tokens)
  {
  }

  lemma RequestsAppend(tokens: seq<Token>, t: Token)
    ensures Requests(tokens + [t]) == Requests(tokens) + [Some(t)]
  {
    assert (tokens + [t])[..|tokens|] == tokens;
  }

  lemma LaterIsFresh(tokens: seq<Token>)
    requires Distinct(tokens)
    ensures forall k :: 0 <= k < |tokens| ==> tokens[k] !in tokens[..k]
  {
  }

  /** What is asked: first without a token, then with each token named. */
  function Requests(tokens: seq<Token>): seq<Option<Token>> {
    if tokens == [] then [None] else Requests(tokens[..|tokens| - 1]) + [Some(tokens[|tokens| - 1])]
  }

  lemma {:induction false} RequestsAreTokens(tokens: seq<Token>)
    ensures |Requests(tokens)| == |tokens| + 1 && Requests(tokens)[0] == None
    ensures forall k :: 0 < k <= |tokens| ==> Requests(tokens)[k] == Some(tokens[k - 1])
  {
    if tokens != [] {
      RequestsAreTokens(tokens[..|tokens| - 1]);
    }
  }

  ghost predicate NamedBefore(steps: nat -> Step, requests: seq<Option<Token>>, k: nat)
    requires 0 < k < |requests|
  {
    requests[k].Some? && steps(k - 1) == Continue(requests[k].value)
  }

  /** The first request names no token, each later one the token of the answer before it, and none is made twice. */
  ghost predicate Follow(steps: nat -> Step, requests: seq<Option<Token>>) {
    && requests != [] && requests[0] == None
    && (forall k: nat :: 0 < k < |requests| ==> NamedBefore(steps, requests, k))
    && (forall k, m :: 0 <= k < m < |requests| ==> requests[k] != requests[m])
  }

  /** The requests along a chain follow its answers, and no token is asked for twice. */
  lemma ChainIsFollowed(steps: nat -> Step, tokens: seq<Token>)
    requires Chain(steps, tokens)
    ensures Follow(steps, Requests(tokens)) && |Requests(tokens)| == |tokens| + 1
  {
    RequestsAreTokens(tokens);
    var requests := Requests(tokens);
    forall k: nat | 0 < k < |requests| ensures NamedBefore(steps, requests, k) {
      assert NamesAt(steps, tokens, k - 1);
    }
  }

  function Concat<T>(answers: nat -> Answer<T>, n: nat): seq<T> {
    if n == 0 then [] else Concat(answers, n - 1) + if answers(n - 1).Page? then answers(n - 1).items else []
  }

  // ----- collectCompletePages -------------------------------------------------------------------

  const MAX_LIST_PAGES: nat := 32

  predicate PageToken(s: string) {
    1 <= |s| <= 4096 && forall i :: 0 <= i < |s| ==> '\U{20}' <= s[i] && s[i] != '\U{7f}'
  }

  /** `nextPageToken`: a null token passes the pattern as the text "null", and still ends the chain. */
  function NextPageToken<T>(answer: Answer<T>): Step {
    if answer.Failure? || !answer.wellShaped then Bad
    else match answer.next
      case Undefined => Stop
      case Null => Stop
      case Present(token) => if PageToken(OnWire(token)) then Continue(token) else Bad
  }

  function PageSteps<T>(answers: nat -> Answer<T>): nat -> Step {
    (k: nat) => NextPageToken(answers(k))
  }

  datatype Collected<T> = Collected(items: seq<T>, pageCount: nat)

  /**
    `collectCompletePages`. It asks only for tokens named so far, each once, and at most 32 times. It succeeds
    exactly when the answers form a chain of fewer than 32 fresh tokens that ends, and then returns exactly the
    concatenation of the pages along it.
   */
  method CollectCompletePages<T>(server: Server<T>) returns (o: Result<Collected<T>>)
    modifies server
    ensures old(server.asked) <= server.asked
    ensures var asked := server.asked[|old(server.asked)|..]; var answers := server.From(|old(server.asked)|);
      && Follow(PageSteps(answers), asked) && |asked| <= MAX_LIST_PAGES
      && (o.Done? ==> PageSteps(answers)(|asked| - 1).Stop? && o.value == Collected(Concat(answers, |asked|), |asked|))
    ensures var steps := PageSteps(server.From(|old(server.asked)|));
      o.Done? <==> exists ts :: |ts| < MAX_LIST_PAGES && Complete(steps, ts)
  {
    hide Chain, Complete, Requests, Follow, PageSteps, NextPageToken, Concat;
    var collected: seq<T> := [];
    var seenPages: set<Token> := {};
    var page: Option<Token> := None;
    var pageCount := 0;
    ghost var answers := server.From(|server.asked|);
    ghost var steps := PageSteps(answers);
    ghost var tokens: seq<Token>, requests: seq<Option<Token>> := [], [];
    EmptyChain(steps);
    assert Concat(answers, 0) == [] by { NothingYet(answers); }
    while true
      invariant 0 <= pageCount == |tokens| == |requests| <= MAX_LIST_PAGES
      invariant server.asked == old(server.asked) + requests
      invariant Chain(steps, tokens) && seenPages == (set t <- tokens)
      invariant Requests(tokens) == requests + [page]
      invariant collected == Concat(answers, pageCount)
      decreases MAX_LIST_PAGES - pageCount
    {
      ChainIsFollowed(steps, tokens);
      if pageCount >= MAX_LIST_PAGES {
        NotCompleteBefore(steps, tokens);
        StepBack(steps, tokens, requests, page);
        ChainIsFollowed(steps, tokens[..pageCount - 1]);
        assert server.asked[|old(server.asked)|..] == requests;
        return Threw;
      }
      requests := requests + [page];
      var value := server.Fetch(page);
      CollectedPage(answers, pageCount);
      assert value == answers(pageCount) && server.asked[|old(server.asked)|..] == requests;
      var next := NextPageToken(value);
      if next.Bad? {
        NeverComplete(steps, tokens);
        return Threw;
      }
      collected := collected + value.items;
      pageCount := pageCount + 1;
      if next.Stop? {
        Completed(steps, tokens);
        return Done(Collected(collected, pageCount));
      }
      if next.token in seenPages {
        NeverComplete(steps, tokens);
        return Threw;
      }
      seenPages := seenPages + {next.token};
      ChainAppend(steps, tokens, next.token);
      RequestsAppend(tokens, next.token);
      tokens := tokens + [next.token];
      page := Some(next.token);
    }
  }

  lemma NothingYet<T>(answers: nat -> Answer<T>)
    ensures Concat(answers, 0) == []
  {
  }

  /** What one more answer means. */
  lemma CollectedPage<T>(answers: nat -> Answer<T>, n: nat)
    ensures PageSteps(answers)(n) == NextPageToken(answers(n))
    ensures answers(n).Failure? ==> NextPageToken(answers(n)).Bad?
    ensures answers(n).Page? ==> Concat(answers, n + 1) == Concat(answers, n) + answers(n).items
  {
  }

  lemma EmptyChain(steps: nat -> Step)
    ensures Chain(steps, []) && Requests([]) == [None]
  {
  }

  /** The last token named was never asked for. */
  lemma StepBack(steps: nat -> Step, tokens: seq<Token>, requests: seq<Option<Token>>, page: Option<Token>)
    requires Chain(steps, tokens) && tokens != [] && Requests(tokens) == requests + [page]
    ensures Chain(steps, tokens[..|tokens| - 1]) && requests == Requests(tokens[..|tokens| - 1])
  {
    ChainPrefix(steps, tokens);
    var front := Requests(tokens[..|tokens| - 1]);
    assert requests == (requests + [page])[..|requests|];
    assert front == (front + [Some(tokens[|tokens| - 1])])[..|front|];
  }

  lemma ChainPrefix(steps: nat -> Step, tokens: seq<Token>)
    requires Chain(steps, tokens) && tokens != []
    ensures Chain(steps, tokens[..|tokens| - 1])
  {
    var front := tokens[..|tokens| - 1];
    forall k: nat | k < |front| ensures NamesAt(steps, front, k) {
      assert NamesAt(steps, tokens, k);
    }
  }

  lemma ChainAppend(steps: nat -> Step, tokens: seq<Token>, t: Token)
    requires Chain(steps, tokens) && steps(|tokens|) == Continue(t) && t !in tokens
    ensures Chain(steps, tokens + [t])
  {
    forall k: nat | k <= |tokens| ensures NamesAt(steps, tokens + [t], k) {
      assert k < |tokens| ==> NamesAt(steps, tokens, k);
    }
  }

  // ----- When a request is made twice ------------------------------------------------------------

  /** Two requests carry the same text. */
  ghost predicate RepeatsOnWire(requests: seq<Option<Token>>) {
    exists k, m :: 0 <= k < m < |requests| && SameOnWire(requests[k], requests[m])
  }

  predicate SameOnWire(a: Option<Token>, b: Option<Token>) {
    a.Some? && b.Some? && OnWire(a.value) == OnWire(b.value)
  }

  ghost predicate AllOf(ok: Token -> bool, requests: seq<Option<Token>>) {
    forall k :: 0 <= k < |requests| && requests[k].Some? ==> ok(requests[k].value)
  }

  /** A server that answers empty pages, names these tokens one by one, and then ends. */
  ghost predicate Names<T>(answers: nat -> Answer<T>, tokens: seq<Token>) {
    forall k: nat :: answers(k) == NamingPage(tokens, k)
  }

  function NamingPage<T>(tokens: seq<Token>, k: nat): Answer<T> {
    Page(true, [], if k < |tokens| then Present(tokens[k]) else Undefined)
  }

  ghost predicate Nameable(tokens: seq<Token>) {
    Distinct(tokens) && |tokens| < MAX_LIST_PAGES && forall k :: 0 <= k < |tokens| ==> PageToken(OnWire(tokens[k]))
  }

  lemma NamedChain<T>(answers: nat -> Answer<T>, tokens: seq<Token>)
    requires Names(answers, tokens) && Nameable(tokens)
    ensures Complete(PageSteps(answers), tokens)
  {
    var steps := PageSteps(answers);
    forall k: nat | k < |tokens| ensures NamesAt(steps, tokens, k) {
      assert answers(k) == NamingPage(tokens, k);
    }
    assert answers(|tokens|) == NamingPage(tokens, |tokens|);
  }

  /** Who follows such a server to its end has asked for exactly its tokens. */
  lemma NamedRequests<T>(answers: nat -> Answer<T>, tokens: seq<Token>, requests: seq<Option<Token>>)
    requires Names(answers, tokens) && Nameable(tokens) && Follow(PageSteps(answers), requests)
    requires PageSteps(answers)(|requests| - 1).Stop?
    ensures requests == [None] + seq(|tokens|, k requires 0 <= k < |tokens| => Some(tokens[k]))
  {
    NamedChain(answers, tokens);
    var steps := PageSteps(answers);
    assert |requests| - 1 < |tokens| ==> NamesAt(steps, tokens, |requests| - 1);
    assert |requests| - 1 > |tokens| ==> NamedBefore(steps, requests, |tokens| + 1);
    forall k: nat | 0 < k < |requests| ensures requests[k] == Some(tokens[k - 1]) {
      assert NamedBefore(steps, requests, k) && NamesAt(steps, tokens, k - 1);
    }
  }

  /** Any fewer than 32 different tokens the pattern accepts are asked for one after the other, whatever they print. */
  method CollectNamed<T>(server: Server<T>, tokens: seq<Token>) returns (o: Result<Collected<T>>)
    requires server.asked == [] && Names(server.answers, tokens) && Nameable(tokens)
    modifies server
    ensures o.Done? && o.value.pageCount == |tokens| + 1
    ensures server.asked == [None] + seq(|tokens|, k requires 0 <= k < |tokens| => Some(tokens[k]))
  {
    ghost var answers := server.From(0);
    assert Names(answers, tokens) by {
      forall k: nat ensures answers(k) == NamingPage(tokens, k) {
        assert answers(k) == server.answers(0 + k);
      }
    }
    NamedChain(answers, tokens);
    hide Follow, Complete, Names, Nameable, PageSteps, Concat;
    o := CollectCompletePages(server);
    NamedRequests(answers, tokens, server.asked);
  }

  /** Different tokens that all turn into one text: an array around it, parsed anew for every page. */
  function Copies(s: string, n: nat): seq<Token> {
    seq(n, k requires 0 <= k < n => Other(s, k + 1))
  }

  /**
    Every text the pattern accepts can be asked for again and again: up to 31 times, which is as often as anything can
    be asked for, in a collection that succeeds.
   */
  method SendsOneText<T>(server: Server<T>, s: string, n: nat) returns (o: Result<Collected<T>>)
    requires PageToken(s) && n < MAX_LIST_PAGES
    requires server.asked == [] && Names(server.answers, Copies(s, n))
    modifies server
    ensures o.Done? && |server.asked| == n + 1
    ensures forall k :: 0 < k <= n ==> server.asked[k].Some? && OnWire(server.asked[k].value) == s
  {
    o := CollectNamed(server, Copies(s, n));
  }

  /** Some server makes the client repeat itself although every token it names satisfies `ok`. */
  ghost predicate Repeatable<T(!new)>(ok: Token -> bool) {
    exists answers: nat -> Answer<T>, requests: seq<Option<Token>> :: Repeats(answers, ok, requests)
  }

  ghost predicate Repeats<T>(answers: nat -> Answer<T>, ok: Token -> bool, requests: seq<Option<Token>>) {
    && Follow(PageSteps(answers), requests) && |requests| <= MAX_LIST_PAGES
    && AllOf(ok, requests) && RepeatsOnWire(requests)
  }

  ghost predicate LookAlikes(ok: Token -> bool) {
    exists t, u :: AreLookAlikes(ok, t, u)
  }

  predicate AreLookAlikes(ok: Token -> bool, t: Token, u: Token) {
    ok(t) && ok(u) && t != u && PageToken(OnWire(t)) && OnWire(t) == OnWire(u)
  }

  /** Whatever is known of the tokens: a request can be repeated exactly if two different tokens look alike. */
  lemma RepeatableIffLookAlikes<T(!new)>(ok: Token -> bool)
    ensures Repeatable<T>(ok) <==> LookAlikes(ok)
  {
    if Repeatable<T>(ok) {
      var answers: nat -> Answer<T>, requests: seq<Option<Token>> :| Repeats(answers, ok, requests);
      var k, m :| 0 <= k < m < |requests| && SameOnWire(requests[k], requests[m]);
      assert 0 < k;
      assert NamedBefore(PageSteps(answers), requests, k);
      CollectedPage(answers, k - 1);
      assert PageToken(OnWire(requests[k].value));
      assert AreLookAlikes(ok, requests[k].value, requests[m].value);
    }
    if LookAlikes(ok) {
      var t, u :| AreLookAlikes(ok, t, u);
      LookAlikesRepeat<T>(ok, t, u);
    }
  }

  lemma LookAlikesRepeat<T(!new)>(ok: Token -> bool, t: Token, u: Token)
    requires AreLookAlikes(ok, t, u)
    ensures Repeatable<T>(ok)
  {
    var tokens := [t, u];
    var answers: nat -> Answer<T> := (k: nat) => NamingPage(tokens, k);
    NamedChain(answers, tokens);
    ChainIsFollowed(PageSteps(answers), tokens);
    RequestsAreTokens(tokens);
    var requests := Requests(tokens);
    assert SameOnWire(requests[1], requests[2]);
    assert Repeats(answers, ok, requests);
  }

  // ----- listAllVersions ------------------------------------------------------------------------

  const MAX_VERSION_PAGES: nat := 100

  datatype Listed = Listed(versionId: string, stages: seq<string>)

  predicate VersionId(id: string) {
    32 <= |id| <= 64 &&
    forall i :: 0 <= i < |id| ==>
      'A' <= id[i] <= 'Z' || 'a' <= id[i] <= 'z' || '0' <= id[i] <= '9' || id[i] == '_' || id[i] == '-'
  }

  /** Here a token must be non-empty text, and null is refused. */
  function NextVersionToken(answer: Answer<Listed>): Step {
    if answer.Failure? || !answer.wellShaped then Bad
    else match answer.next
      case Undefined => Stop
      case Null => Bad
      case Present(token) => if token.Text? && token.text != "" then Continue(token) else Bad
  }

  function VersionSteps(answers: nat -> Answer<Listed>): nat -> Step {
    (k: nat) => NextVersionToken(answers(k))
  }

  /** The secret inventory demands text, and so never makes one request twice. */
  lemma VersionRequestsNeverRepeat(answers: nat -> Answer<Listed>, requests: seq<Option<Token>>)
    requires Follow(VersionSteps(answers), requests)
    ensures !RepeatsOnWire(requests)
  {
    forall k, m | 0 <= k < m < |requests| ensures !SameOnWire(requests[k], requests[m]) {
      if requests[k].Some? && requests[m].Some? {
        assert NamedBefore(VersionSteps(answers), requests, k) && NamedBefore(VersionSteps(answers), requests, m);
        VersionPage(answers, k - 1);
        VersionPage(answers, m - 1);
        assert requests[k].value.Text? && requests[m].value.Text?;
      }
    }
  }

  /** Every identifier is well formed and occurs once. */
  ghost predicate Inventory(items: seq<Listed>) {
    && (forall k :: 0 <= k < |items| ==> VersionId(items[k].versionId))
    && (forall k, m :: 0 <= k < m < |items| ==> items[k].versionId != items[m].versionId)
  }

  /** The map an inventory denotes. */
  ghost predicate Denotes(versions: map<string, seq<string>>, items: seq<Listed>) {
    && (forall k :: 0 <= k < |items| ==>
          items[k].versionId in versions && versions[items[k].versionId] == items[k].stages)
    && (forall id :: id in versions ==> exists k :: 0 <= k < |items| && items[k].versionId == id)
  }

  method AddVersions(versions: map<string, seq<string>>, page: seq<Listed>, ghost before: seq<Listed>)
    returns (o: Result<map<string, seq<string>>>)
    requires Inventory(before) && Denotes(versions, before)
    ensures o.Done? <==> Inventory(before + page)
    ensures o.Done? ==> Denotes(o.value, before + page)
  {
    hide Inventory, Denotes;
    var all := versions;
    assert before + page[..0] == before;
    for i := 0 to |page|
      invariant Inventory(before + page[..i]) && Denotes(all, before + page[..i])
    {
      var version := page[i];
      ghost var known := before + page[..i];
      assert before + page[..i + 1] == known + [version];
      assert before + page == known + [version] + page[i + 1..];
      NextVersion(all, known, version, page[i + 1..]);
      if !VersionId(version.versionId) || version.versionId in all {
        return Threw;
      }
      all := all[version.versionId := version.stages];
    }
    assert page[..|page|] == page;
    return Done(all);
  }

  /**
    One more version keeps the map faithful if its identifier is well formed and new; otherwise nothing after it
    does.
   */
  lemma NextVersion(all: map<string, seq<string>>, known: seq<Listed>, v: Listed, rest: seq<Listed>)
    requires Inventory(known) && Denotes(all, known)
    ensures VersionId(v.versionId) && v.versionId !in all ==>
              Inventory(known + [v]) && Denotes(all[v.versionId := v.stages], known + [v])
    ensures !VersionId(v.versionId) || v.versionId in all ==> !Inventory(known + [v] + rest)
  {
    var items, longer := known + [v], known + [v] + rest;
    assert items[|known|] == v && longer[|known|] == v;
    assert forall k :: 0 <= k < |known| ==> items[k] == known[k] && longer[k] == known[k];
  }

  /**
    `listAllVersions`. Within at most 100 requests it returns exactly the disjoint union of the pages along the
    token chain; it throws when that chain does not end in time or an identifier is malformed or repeated.
   */
  method ListAllVersions(server: Server<Listed>) returns (o: Result<map<string, seq<string>>>)
    modifies server
    ensures old(server.asked) <= server.asked
    ensures var asked := server.asked[|old(server.asked)|..]; var answers := server.From(|old(server.asked)|);
      && Follow(VersionSteps(answers), asked) && |asked| <= MAX_VERSION_PAGES
      && (o.Done? ==> VersionSteps(answers)(|asked| - 1).Stop? && Denotes(o.value, Concat(answers, |asked|)))
    ensures var answers := server.From(|old(server.asked)|);
      o.Done? <==> exists ts :: |ts| < MAX_VERSION_PAGES && Complete(VersionSteps(answers), ts) &&
                     Inventory(Concat(answers, |ts| + 1))
  {
    hide Chain, Complete, Requests, Inventory, Denotes, Follow, VersionSteps, NextVersionToken, Concat, VersionId;
    ghost var answers := server.From(|server.asked|);
    ghost var steps := VersionSteps(answers);
    var versions: map<string, seq<string>> := map[];
    var observedTokens: set<Token> := {};
    var nextToken: Option<Token> := None;
    ghost var tokens: seq<Token>, requests: seq<Option<Token>> := [], [];
    EmptyChain(steps);
    EmptyInventory(answers);
    for page := 0 to MAX_VERSION_PAGES
      invariant page == |tokens| == |requests|
      invariant server.asked == old(server.asked) + requests
      invariant Chain(steps, tokens) && observedTokens == (set t <- tokens)
      invariant Requests(tokens) == requests + [nextToken]
      invariant Inventory(Concat(answers, page)) && Denotes(versions, Concat(answers, page))
    {
      ChainIsFollowed(steps, tokens);
      requests := requests + [nextToken];
      var response := server.Fetch(nextToken);
      VersionPage(answers, page);
      assert response == answers(page) && server.asked[|old(server.asked)|..] == requests;
      if response.Failure? || !response.wellShaped {
        NoLongerChain(answers, tokens, page);
        return Threw;
      }
      var added := AddVersions(versions, response.items, Concat(answers, page));
      if added.Threw? {
        NoLongerChain(answers, tokens, page);
        return Threw;
      }
      versions := added.value;
      var next := NextVersionToken(response);
      if next.Stop? {
        Completed(steps, tokens);
        return Done(versions);
      }
      if next.Bad? || next.token in observedTokens {
        NoLongerChain(answers, tokens, page);
        return Threw;
      }
      observedTokens := observedTokens + {next.token};
      ChainAppend(steps, tokens, next.token);
      RequestsAppend(tokens, next.token);
      tokens := tokens + [next.token];
      nextToken := Some(next.token);
    }
    NotCompleteBefore(steps, tokens);
    StepBack(steps, tokens, requests, nextToken);
    ChainIsFollowed(steps, tokens[..MAX_VERSION_PAGES - 1]);
    assert server.asked[|old(server.asked)|..] == requests;
    return Threw;
  }

  lemma EmptyInventory(answers: nat -> Answer<Listed>)
    ensures Concat(answers, 0) == [] && Inventory([]) && Denotes(map[], [])
  {
  }

  /** What one more answer means. */
  lemma VersionPage(answers: nat -> Answer<Listed>, n: nat)
    ensures VersionSteps(answers)(n) == NextVersionToken(answers(n))
    ensures answers(n).Failure? || !answers(n).wellShaped ==> NextVersionToken(answers(n)).Bad?
    ensures answers(n).Page? ==> Concat(answers, n + 1) == Concat(answers, n) + answers(n).items
  {
  }

  /** Nothing that goes wrong at the n-th page leaves a complete chain with a proper inventory. */
  lemma NoLongerChain(answers: nat -> Answer<Listed>, tokens: seq<Token>, n: nat)
    requires |tokens| == n && Chain(VersionSteps(answers), tokens)
    requires var next := NextVersionToken(answers(n));
      next.Bad? || (next.Continue? && next.token in tokens) || !Inventory(Concat(answers, n + 1))
    ensures !exists ts :: Complete(VersionSteps(answers), ts) && Inventory(Concat(answers, |ts| + 1))
  {
    var steps := VersionSteps(answers);
    forall ts | Complete(steps, ts) && Inventory(Concat(answers, |ts| + 1)) ensures false {
      if |ts| >= n {
        InventoryPrefix(answers, n + 1, |ts| + 1);
      }
      DeadEnd(steps, tokens, ts);
    }
  }

  lemma {:induction false} InventoryPrefix(answers: nat -> Answer<Listed>, n: nat, m: nat)
    requires n <= m && Inventory(Concat(answers, m))
    ensures Inventory(Concat(answers, n))
    decreases m
  {
    if n < m {
      var front := Concat(answers, m - 1);
      assert Concat(answers, m)[..|front|] == front;
      assert forall k :: 0 <= k < |front| ==> Concat(answers, m)[k] == front[k];
      InventoryPrefix(answers, n, m - 1);
    }
  }
}
