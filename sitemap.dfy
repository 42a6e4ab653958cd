/** CreateSitemap of internal/sitemap/sitemap.go: a task that fetches its
    own page and starts a goroutine per link while its depth lasts. */
module Sitemap {
  import opened Web
  import opened Links
  import opened Page
  import opened Invariants

  /** Everything one call does, in order. This is the corrected step: a
      failed fetch of the page is reported and the task ends (see
      RunAsWritten for the call as written, which panics there). */
  function Run(net: Net, u: Option<Url>, maxDepth: int): (r: seq<Event>)
    ensures u.None? || maxDepth == 0 ==> r == []
    // otherwise the page is requested first, before anything is sent or started
    ensures u.Some? && maxDepth != 0 ==> |r| > 0 && r[0] == Requested(u.value.text)
    ensures |Children(r)| <= (if maxDepth > 0 then maxDepth else 0)
  {
    match u
    case None => []
    case Some(page) =>
      if maxDepth == 0 then []
      else match net.get(page.text)
        case Failed(_) => [Requested(page.text), Reported(FetchError(page.text))]
        case Body(tokens) =>
          assert Children([Requested(page.text)]) == [];
          RunCountdown(Package, net, page, "", maxDepth, [Requested(page.text)], tokens);
          Tokens(Package, net, page, State("", maxDepth, [Requested(page.text)]), tokens).events
  }

  /** One task. It returns the tasks it started so that a sequential
      driver can run them. */
  method CreateSitemap(net: Net, u: Option<Url>, group: CrawlState, maxDepth: int) returns (children: seq<Task>)
    modifies group
    ensures group.trace == old(group.trace) + Run(net, u, maxDepth)
    ensures children == Children(Run(net, u, maxDepth))
    // every exit calls Done once, after one Add per started task
    ensures group.pending == old(group.pending) + |children| - 1
    // the nil and zero-depth guards: nothing fetched, sent or started
    ensures u.None? || maxDepth == 0 ==> group.trace == old(group.trace) && children == []
  {
    if u.None? {
      group.Done();
      return [];
    }
    if maxDepth == 0 {
      group.Done();
      return [];
    }
    var page := u.value;
    group.Record(Requested(page.text));
    var response := net.get(page.text);
    if response.Failed? {
      group.Record(Reported(FetchError(page.text)));
      group.Done();
      return [];
    }
    var tokens := response.tokens;
    var baseElement := "";
    var depth := maxDepth;
    ghost var start := State("", maxDepth, [Requested(page.text)]);
    ghost var prefix := old(group.trace);
    ghost var done: seq<Event> := [Requested(page.text)];
    assert Children(done) == [] by { ChildrenAppend([], Requested(page.text)); }
    children := [];
    var i := 0;
    while i < |tokens|
      invariant 0 <= i <= |tokens|
      invariant group.trace == prefix + done
      invariant Tokens(Package, net, page, State(baseElement, depth, done), tokens[i..]) == Tokens(Package, net, page, start, tokens)
      invariant children == Children(done)
      invariant group.pending == old(group.pending) + |children|
    {
      var t := tokens[i];
      assert tokens[i..][1..] == tokens[i + 1..];
      if t.ErrorToken? {
        break;
      }
      ghost var before := State(baseElement, depth, done);
      if t.StartTag? && t.name == "a" {
        var spawned;
        depth, spawned, done := AnchorTag(net, page, group, baseElement, depth, t.attrs, prefix, done);
        children := children + spawned;
      }
      ghost var afterAnchor := State(baseElement, depth, done);
      assert afterAnchor == if t.StartTag? && t.name == "a" then Anchor(Package, net, page, before, t.attrs) else before;
      if t.StartTag? && t.name == "base" {
        baseElement, done := BaseTag(net.parse, group, baseElement, t.attrs, depth, prefix, done);
      }
      assert State(baseElement, depth, done) == TokenStep(Package, net, page, before, t);
      i := i + 1;
    }
    group.Done();
  }

  /** The attribute loop of an `<a>` start tag. */
  method AnchorTag(net: Net, page: Url, group: CrawlState, baseElement: string, depth: int, attrs: seq<Attribute>,
                   ghost prefix: seq<Event>, ghost done: seq<Event>)
    returns (depthOut: int, spawned: seq<Task>, ghost doneOut: seq<Event>)
    requires group.trace == prefix + done
    modifies group
    ensures State(baseElement, depthOut, doneOut) == Anchor(Package, net, page, State(baseElement, depth, done), attrs)
    ensures group.trace == prefix + doneOut
    ensures Children(doneOut) == Children(done) + spawned
    ensures group.pending == old(group.pending) + |spawned|
  {
    depthOut, spawned, doneOut := depth, [], done;
    for j := 0 to |attrs|
      invariant Anchor(Package, net, page, State(baseElement, depthOut, doneOut), attrs[j..]) == Anchor(Package, net, page, State(baseElement, depth, done), attrs)
      invariant group.trace == prefix + doneOut
      invariant Children(doneOut) == Children(done) + spawned
      invariant group.pending == old(group.pending) + |spawned|
    {
      assert attrs[j..][1..] == attrs[j + 1..];
      ghost var cur := State(baseElement, depthOut, doneOut);
      var child;
      depthOut, child, doneOut := Link(net, page, group, baseElement, depthOut, attrs[j], prefix, doneOut);
      ChildrenGrow(done, cur.events, doneOut, spawned, child);
      spawned := spawned + child;
      AnchorNext(Package, net, page, cur, attrs[j..], State(baseElement, depthOut, doneOut), false);
    }
  }

  /** One anchor attribute: filter and build the link, send it, parse it
      again and, while depth lasts, start a task for it. */
  method Link(net: Net, page: Url, group: CrawlState, baseElement: string, depth: int, a: Attribute,
              ghost prefix: seq<Event>, ghost done: seq<Event>)
    returns (depthOut: int, spawned: seq<Task>, ghost doneOut: seq<Event>)
    requires group.trace == prefix + done
    modifies group
    ensures (State(baseElement, depthOut, doneOut), false) == Follow(Package, net, page, State(baseElement, depth, done), a)
    ensures group.trace == prefix + doneOut
    ensures Children(doneOut) == Children(done) + spawned
    ensures group.pending == old(group.pending) + |spawned|
  {
    depthOut, spawned, doneOut := depth, [], done;
    ghost var st := State(baseElement, depth, done);
    var link := Discover(net.parse, page, baseElement, a);
    if link.None? {
      FollowSkipped(Package, net, page, st, a);
      return;
    }
    doneOut := Emit(group, Found(link.value), prefix, done);
    var next := net.parse(link.value);
    if next.None? {
      FollowUnparsed(Package, net, page, st, a, link.value);
      doneOut := Emit(group, Reported(ParseError(link.value)), prefix, doneOut);
      return;
    }
    FollowParsed(Package, net, page, st, a, link.value, next.value);
    depthOut, spawned, doneOut := SpawnChild(group, baseElement, depth, next.value, prefix, doneOut);
  }

  /** Child spawning for one task: the k-th child gets maxDepth - 1 - k,
      none gets a negative depth and at most maxDepth are started. */
  lemma ChildDepths(net: Net, u: Option<Url>, maxDepth: int)
    ensures var kids := Children(Run(net, u, maxDepth));
            && |kids| <= (if maxDepth > 0 then maxDepth else 0)
            && forall k :: 0 <= k < |kids| ==> 0 <= kids[k].depth == maxDepth - 1 - k
  {
    if u.Some? && maxDepth != 0 {
      var page := u.value;
      var own := [Requested(page.text)];
      ChildrenAppend([], Requested(page.text));
      assert [] + own == own;
      var response := net.get(page.text);
      if response.Failed? {
        ChildrenAppend(own, Reported(FetchError(page.text)));
        assert Run(net, u, maxDepth) == own + [Reported(FetchError(page.text))];
      } else {
        assert Run(net, u, maxDepth) == Tokens(Package, net, page, State("", maxDepth, own), response.tokens).events;
        RunCountdown(Package, net, page, "", maxDepth, own, response.tokens);
      }
    }
  }

  /** The order of one task's trace: its own request comes first, and
      every child follows the link it was made from; see Justified. */
  lemma TraceOrdered(net: Net, u: Option<Url>, maxDepth: int)
    ensures Ordered(Package, net, Run(net, u, maxDepth))
  {
    if u.Some? && maxDepth != 0 {
      var page := u.value;
      OrderedAppend(Package, net, [], Requested(page.text));
      match net.get(page.text)
      case Failed(_) =>
        OrderedAppend(Package, net, [Requested(page.text)], Reported(FetchError(page.text)));
      case Body(tokens) =>
        RunOrdered(Package, net, page, State("", maxDepth, [Requested(page.text)]), tokens);
    }
  }

  /** Everything a task and all the tasks it starts do, run depth first:
      the task's own events, then each child's crawl in the order the
      children were started. */
  ghost function CrawlTrace(net: Net, u: Option<Url>, maxDepth: int): seq<Event>
    decreases if maxDepth > 0 then maxDepth else 0, 1
  {
    var own := Run(net, u, maxDepth);
    own + ChildrenTrace(net, Children(own), if maxDepth > 0 then maxDepth else 0)
  }

  /** The crawls of a list of children, in order. Every child's depth is
      below the bound (ChildDepths); the guard only makes that visible to
      the termination check. */
  ghost function ChildrenTrace(net: Net, kids: seq<Task>, bound: nat): seq<Event>
    decreases bound, 0, |kids|
  {
    if kids == [] then []
    else
      var last := kids[|kids| - 1];
      var rest := ChildrenTrace(net, kids[..|kids| - 1], bound);
      if 0 <= last.depth < bound then rest + CrawlTrace(net, Some(last.url), last.depth) else rest
  }

  lemma CrawlTraceUnfold(net: Net, u: Option<Url>, maxDepth: int)
    ensures CrawlTrace(net, u, maxDepth) == Run(net, u, maxDepth) + ChildrenTrace(net, Children(Run(net, u, maxDepth)), if maxDepth > 0 then maxDepth else 0)
  {
  }

  /** One more child crawled. */
  lemma ChildrenTraceNext(net: Net, kids: seq<Task>, k: int, bound: nat)
    requires 0 <= k < |kids|
    requires forall i :: 0 <= i < |kids| ==> 0 <= kids[i].depth < bound
    ensures ChildrenTrace(net, kids[..k + 1], bound) == ChildrenTrace(net, kids[..k], bound) + CrawlTrace(net, Some(kids[k].url), kids[k].depth)
  {
    assert kids[..k + 1][..k] == kids[..k];
  }

  /** A sequential schedule of the goroutines: a task, then each task it
      started, depth first. It records exactly CrawlTrace. Every task calls
      Done once and each start was counted by Add, so the counter comes
      back to where it was before the task was counted; this is what lets
      parallelGroup.Wait return. */
  method CrawlFrom(net: Net, u: Option<Url>, group: CrawlState, maxDepth: int)
    modifies group
    ensures group.trace == old(group.trace) + CrawlTrace(net, u, maxDepth)
    ensures group.pending == old(group.pending) - 1
    ensures u.None? || maxDepth == 0 ==> group.trace == old(group.trace)
    decreases if maxDepth > 0 then maxDepth else 0
  {
    var children := CreateSitemap(net, u, group, maxDepth);
    ChildDepths(net, u, maxDepth);
    ghost var bound: nat := if maxDepth > 0 then maxDepth else 0;
    ghost var start := group.trace;
    ghost var own := Run(net, u, maxDepth);
    CrawlTraceUnfold(net, u, maxDepth);
    for k := 0 to |children|
      invariant group.pending == old(group.pending) + |children| - 1 - k
      invariant group.trace == start + ChildrenTrace(net, children[..k], bound)
    {
      ChildrenTraceNext(net, children, k, bound);
      ghost var done := ChildrenTrace(net, children[..k], bound);
      ghost var next := CrawlTrace(net, Some(children[k].url), children[k].depth);
      CrawlFrom(net, Some(children[k].url), group, children[k].depth);
      AppendAssoc(start, done, next);
    }
    assert children[..|children|] == children;
    AppendAssoc(old(group.trace), own, ChildrenTrace(net, children, bound));
  }

  // ---------------------------------------------------------------------
  // A failed fetch of the task's own page.

  /** The call as written: the deferred close of the response body
      (internal/sitemap/sitemap.go:41) reads the body before the error is
      looked at. On a transport error http.Get hands back a nil response,
      so the goroutine dereferences nil there and panics instead of
      reporting the error and calling Done. None stands for that panic. A
      redirect failure comes with a response, so it is reported as in Run,
      and every other input behaves as Run too. */
  function RunAsWritten(net: Net, u: Option<Url>, maxDepth: int): (r: Option<seq<Event>>)
    ensures r.None? <==> u.Some? && maxDepth != 0 && net.get(u.value.text).Failed? && !net.get(u.value.text).withResponse
    ensures r.Some? ==> r.value == Run(net, u, maxDepth)
  {
    match u
    case None => Some([])
    case Some(page) =>
      if maxDepth == 0 then Some([])
      else match net.get(page.text)
        case Failed(withResponse) =>
          if withResponse then Some([Requested(page.text), Reported(FetchError(page.text))]) else None
        case Body(tokens) => Some(Tokens(Package, net, page, State("", maxDepth, [Requested(page.text)]), tokens).events)
  }

  /** Any page whose request fails without a response (an unreachable
      host, say) crashes the crawl as written, where the error was
      evidently meant to go to the error channel. */
  lemma FailedFetchPanics(net: Net, page: Url, maxDepth: int)
    requires maxDepth != 0 && net.get(page.text).Failed? && !net.get(page.text).withResponse
    ensures RunAsWritten(net, Some(page), maxDepth).None?
    ensures Reported(FetchError(page.text)) in Run(net, Some(page), maxDepth)
  {
    assert Run(net, Some(page), maxDepth)[1] == Reported(FetchError(page.text));
  }

  /** With the error checked first: the task reports a fetch error for its
      own page exactly when fetching that page fails. */
  lemma FetchFailureReported(net: Net, page: Url, maxDepth: int)
    requires maxDepth != 0
    ensures Reported(FetchError(page.text)) in Run(net, Some(page), maxDepth) <==> net.get(page.text).Failed?
  {
    var events := Run(net, Some(page), maxDepth);
    if net.get(page.text).Failed? {
      assert events[1] == Reported(FetchError(page.text));
    }
    TraceOrdered(net, Some(page), maxDepth);
    forall i | 0 <= i < |events| && events[i] == Reported(FetchError(page.text))
      ensures net.get(page.text).Failed?
    {
      assert Justified(Package, net, events, i);
    }
  }
}
