/** createSitemap and main of main.go: the same page step, except that a
    task fetches the page of each link before starting the child task for
    it, and gives up the anchor when that fetch fails; main collects what
    the tasks send into a map keyed by location. */
module Program {
  import opened Web
  import opened Links
  import opened Page
  import opened Invariants
  import opened Aggregate

  /** Everything one call does, in order, given the tokens of the response
      its parent fetched. */
  function Run(net: Net, page: Url, body: seq<Token>, maxDepth: int): (r: seq<Event>)
    ensures maxDepth == 0 ==> r == []
    ensures |Children(r)| <= (if maxDepth > 0 then maxDepth else 0)
  {
    if maxDepth == 0 then []
    else
      RunCountdown(MainCopy, net, page, "", maxDepth, [], body);
      Tokens(MainCopy, net, page, State("", maxDepth, []), body).events
  }

  /** One task. It returns the tasks it started so that a sequential
      driver can run them. */
  method CreateSitemap(net: Net, body: seq<Token>, page: Url, group: CrawlState, maxDepth: int) returns (children: seq<Task>)
    modifies group
    ensures group.trace == old(group.trace) + Run(net, page, body, maxDepth)
    ensures children == Children(Run(net, page, body, maxDepth))
    // every exit calls Done once, after one Add per started task
    ensures group.pending == old(group.pending) + |children| - 1
    // the zero-depth guard: nothing sent or started
    ensures maxDepth == 0 ==> group.trace == old(group.trace) && children == []
  {
    if maxDepth == 0 {
      group.Done();
      return [];
    }
    var baseElement := "";
    var depth := maxDepth;
    ghost var start := State("", maxDepth, []);
    ghost var prefix := old(group.trace);
    ghost var done: seq<Event> := [];
    children := [];
    var i := 0;
    while i < |body|
      invariant 0 <= i <= |body|
      invariant group.trace == prefix + done
      invariant Tokens(MainCopy, net, page, State(baseElement, depth, done), body[i..]) == Tokens(MainCopy, net, page, start, body)
      invariant children == Children(done)
      invariant group.pending == old(group.pending) + |children|
    {
      var t := body[i];
      assert body[i..][1..] == body[i + 1..];
      if t.ErrorToken? {
        break;
      }
      ghost var before := State(baseElement, depth, done);
      if t.StartTag? && t.name == "a" {
        var spawned;
        depth, spawned, done := AnchorTag(net, page, group, baseElement, depth, t.attrs, prefix, done);
        children := children + spawned;
      }
      ghost var afterAnchor := State(baseElement, depth, done);
      assert afterAnchor == if t.StartTag? && t.name == "a" then Anchor(MainCopy, net, page, before, t.attrs) else before;
      if t.StartTag? && t.name == "base" {
        baseElement, done := BaseTag(net.parse, group, baseElement, t.attrs, depth, prefix, done);
      }
      assert State(baseElement, depth, done) == TokenStep(MainCopy, net, page, before, t);
      i := i + 1;
    }
    group.Done();
  }

  /** The attribute loop of an `<a>` start tag, left with `break` when a
      fetch fails. */
  method AnchorTag(net: Net, page: Url, group: CrawlState, baseElement: string, depth: int, attrs: seq<Attribute>,
                   ghost prefix: seq<Event>, ghost done: seq<Event>)
    returns (depthOut: int, spawned: seq<Task>, ghost doneOut: seq<Event>)
    requires group.trace == prefix + done
    modifies group
    ensures State(baseElement, depthOut, doneOut) == Anchor(MainCopy, net, page, State(baseElement, depth, done), attrs)
    ensures group.trace == prefix + doneOut
    ensures Children(doneOut) == Children(done) + spawned
    ensures group.pending == old(group.pending) + |spawned|
  {
    depthOut, spawned, doneOut := depth, [], done;
    for j := 0 to |attrs|
      invariant Anchor(MainCopy, net, page, State(baseElement, depthOut, doneOut), attrs[j..]) == Anchor(MainCopy, net, page, State(baseElement, depth, done), attrs)
      invariant group.trace == prefix + doneOut
      invariant Children(doneOut) == Children(done) + spawned
      invariant group.pending == old(group.pending) + |spawned|
    {
      assert attrs[j..][1..] == attrs[j + 1..];
      ghost var cur := State(baseElement, depthOut, doneOut);
      var child, stop;
      depthOut, child, stop, doneOut := Link(net, page, group, baseElement, depthOut, attrs[j], prefix, doneOut);
      ChildrenGrow(done, cur.events, doneOut, spawned, child);
      spawned := spawned + child;
      ghost var next := State(baseElement, depthOut, doneOut);
      AnchorNext(MainCopy, net, page, cur, attrs[j..], next, stop);
      if stop {
        break;
      }
    }
  }

  /** One anchor attribute: filter and build the link, send it, parse it
      again, fetch it and, while depth lasts, start a task for it. */
  method Link(net: Net, page: Url, group: CrawlState, baseElement: string, depth: int, a: Attribute,
              ghost prefix: seq<Event>, ghost done: seq<Event>)
    returns (depthOut: int, spawned: seq<Task>, stop: bool, ghost doneOut: seq<Event>)
    requires group.trace == prefix + done
    modifies group
    ensures (State(baseElement, depthOut, doneOut), stop) == Follow(MainCopy, net, page, State(baseElement, depth, done), a)
    ensures group.trace == prefix + doneOut
    ensures Children(doneOut) == Children(done) + spawned
    ensures group.pending == old(group.pending) + |spawned|
  {
    depthOut, spawned, stop, doneOut := depth, [], false, done;
    ghost var st := State(baseElement, depth, done);
    var link := Discover(net.parse, page, baseElement, a);
    if link.None? {
      FollowSkipped(MainCopy, net, page, st, a);
      return;
    }
    doneOut := Emit(group, Found(link.value), prefix, done);
    var next := net.parse(link.value);
    if next.None? {
      FollowUnparsed(MainCopy, net, page, st, a, link.value);
      doneOut := Emit(group, Reported(ParseError(link.value)), prefix, doneOut);
      return;
    }
    FollowParsed(MainCopy, net, page, st, a, link.value, next.value);
    depthOut, spawned, stop, doneOut := FetchChild(net, group, baseElement, depth, next.value, prefix, doneOut);
  }

  /** http.Get of the link's page; on success, and while depth lasts, a
      task is started with the response. */
  method FetchChild(net: Net, group: CrawlState, ghost baseElement: string, depth: int, next: Url, ghost prefix: seq<Event>, ghost done: seq<Event>)
    returns (depthOut: int, spawned: seq<Task>, stop: bool, ghost doneOut: seq<Event>)
    requires group.trace == prefix + done
    modifies group
    ensures (State(baseElement, depthOut, doneOut), stop) == Fetch(net, State(baseElement, depth, done), next)
    ensures group.trace == prefix + doneOut
    ensures Children(doneOut) == Children(done) + spawned
    ensures group.pending == old(group.pending) + |spawned|
  {
    depthOut, spawned, stop, doneOut := depth, [], false, done;
    doneOut := Emit(group, Requested(next.text), prefix, done);
    ghost var requested := State(baseElement, depth, doneOut);
    var response := net.get(next.text);
    if response.Failed? {
      doneOut := Emit(group, Reported(FetchError(next.text)), prefix, doneOut);
      stop := true;
      return;
    }
    assert Fetch(net, State(baseElement, depth, done), next) == (Spawn(requested, next), false);
    depthOut, spawned, doneOut := SpawnChild(group, baseElement, depth, next, prefix, doneOut);
  }

  // ---------------------------------------------------------------------
  // Properties of one task.

  /** Every child started so far was fetched successfully: its page is
      the response handed to it. */
  ghost predicate ChildrenFetched(net: Net, st: State) {
    forall t :: t in Children(st.events) ==> net.get(t.url.text).Body?
  }

  lemma AppendFetched(net: Net, st: State, e: Event)
    requires ChildrenFetched(net, st) && !e.Spawned?
    ensures ChildrenFetched(net, st.(events := st.events + [e]))
  {
    ChildrenAppend(st.events, e);
  }

  lemma FollowFetched(net: Net, page: Url, st: State, a: Attribute)
    requires ChildrenFetched(net, st)
    ensures ChildrenFetched(net, Follow(MainCopy, net, page, st, a).0)
  {
    match Discover(net.parse, page, st.baseElement, a)
    case None =>
    case Some(link) =>
      var found := st.(events := st.events + [Found(link)]);
      AppendFetched(net, st, Found(link));
      match net.parse(link)
      case None =>
        AppendFetched(net, found, Reported(ParseError(link)));
      case Some(next) =>
        var requested := found.(events := found.events + [Requested(next.text)]);
        AppendFetched(net, found, Requested(next.text));
        if net.get(next.text).Failed? {
          AppendFetched(net, requested, Reported(FetchError(next.text)));
        } else if requested.depth > 0 {
          ChildrenAppend(requested.events, Spawned(Task(next, requested.depth - 1)));
          assert Follow(MainCopy, net, page, st, a).0 == Spawn(requested, next);
        }
  }

  lemma BaseStepFetched(net: Net, st: State, a: Attribute)
    requires ChildrenFetched(net, st)
    ensures ChildrenFetched(net, BaseStep(net.parse, st, a))
  {
    if a.key == "href" && net.parse(a.val).None? {
      AppendFetched(net, st, Reported(ParseError(a.val)));
    }
  }

  /** Child spawning for one task: the k-th child gets maxDepth - 1 - k,
      none gets a negative depth, at most maxDepth are started, and each
      one's page was fetched before it was started. */
  lemma ChildDepths(net: Net, page: Url, body: seq<Token>, maxDepth: int)
    ensures var kids := Children(Run(net, page, body, maxDepth));
            && |kids| <= (if maxDepth > 0 then maxDepth else 0)
            && (forall k :: 0 <= k < |kids| ==> 0 <= kids[k].depth == maxDepth - 1 - k)
            && (forall k :: 0 <= k < |kids| ==> net.get(kids[k].url.text).Body?)
  {
    if maxDepth != 0 {
      var st := State("", maxDepth, []);
      RunCountdown(MainCopy, net, page, "", maxDepth, [], body);
      forall s: State, a: Attribute | ChildrenFetched(net, s) ensures ChildrenFetched(net, Follow(MainCopy, net, page, s, a).0) {
        FollowFetched(net, page, s, a);
      }
      forall s: State, a: Attribute | ChildrenFetched(net, s) ensures ChildrenFetched(net, BaseStep(net.parse, s, a)) {
        BaseStepFetched(net, s, a);
      }
      TokensPreserve(MainCopy, net, page, (s: State) => ChildrenFetched(net, s), st, body);
    }
  }

  /** The order of one task's trace: every request follows the link it
      fetches, and every child follows its link and that request; see
      Justified. */
  lemma TraceOrdered(net: Net, page: Url, body: seq<Token>, maxDepth: int)
    ensures Ordered(MainCopy, net, Run(net, page, body, maxDepth))
  {
    if maxDepth != 0 {
      RunOrdered(MainCopy, net, page, State("", maxDepth, []), body);
    }
  }

  predicate IsFetchError(e: Event) {
    e.Reported? && e.failure.FetchError?
  }

  lemma FollowFetchError(net: Net, page: Url, st: State, a: Attribute)
    ensures var (next, stop) := Follow(MainCopy, net, page, st, a);
            && |st.events| <= |next.events| && next.events[..|st.events|] == st.events
            && (stop ==> IsFetchError(next.events[|next.events| - 1]))
            && forall i :: |st.events| <= i < |next.events| && IsFetchError(next.events[i]) ==> stop && i == |next.events| - 1
  {
    match Discover(net.parse, page, st.baseElement, a)
    case None =>
    case Some(link) =>
      match net.parse(link)
      case None =>
      case Some(next) =>
        var n := |st.events|;
        var requested := st.events + [Found(link), Requested(next.text)];
        assert requested == st.events + [Found(link)] + [Requested(next.text)];
        assert !IsFetchError(requested[n]) && !IsFetchError(requested[n + 1]);
  }

  /** `break` on a failed fetch: once a fetch fails, the anchor's
      remaining attributes are not looked at, so its error is the last
      event the anchor produces. */
  lemma {:induction false} FetchErrorEndsAnchor(net: Net, page: Url, st: State, attrs: seq<Attribute>)
    ensures var r := Anchor(MainCopy, net, page, st, attrs);
            && |st.events| <= |r.events| && r.events[..|st.events|] == st.events
            && forall i :: |st.events| <= i < |r.events| - 1 ==> !IsFetchError(r.events[i])
    decreases |attrs|
  {
    if attrs != [] {
      var (next, stop) := Follow(MainCopy, net, page, st, attrs[0]);
      FollowFetchError(net, page, st, attrs[0]);
      if !stop {
        FetchErrorEndsAnchor(net, page, next, attrs[1..]);
        var r := Anchor(MainCopy, net, page, next, attrs[1..]);
        assert r.events[..|next.events|] == next.events;
        forall i | |st.events| <= i < |r.events| - 1 ensures !IsFetchError(r.events[i]) {
          if i < |next.events| {
            assert r.events[i] == next.events[i];
          }
        }
      }
    }
  }

  // ---------------------------------------------------------------------
  // The crawl.

  /** Everything a task and all the tasks it starts do, run depth first:
      the task's own events, then each child's crawl, started from the
      response fetched for it, in the order the children were started. */
  ghost function CrawlTrace(net: Net, page: Url, body: seq<Token>, maxDepth: int): seq<Event>
    decreases if maxDepth > 0 then maxDepth else 0, 1
  {
    var own := Run(net, page, body, maxDepth);
    own + ChildrenTrace(net, Children(own), if maxDepth > 0 then maxDepth else 0)
  }

  /** The crawls of a list of children, in order. Every child's depth is
      below the bound and its page was fetched (ChildDepths); the guard
      only makes that visible to the termination check. */
  ghost function ChildrenTrace(net: Net, kids: seq<Task>, bound: nat): seq<Event>
    decreases bound, 0, |kids|
  {
    if kids == [] then []
    else
      var last := kids[|kids| - 1];
      var rest := ChildrenTrace(net, kids[..|kids| - 1], bound);
      if 0 <= last.depth < bound && net.get(last.url.text).Body? then
        rest + CrawlTrace(net, last.url, net.get(last.url.text).tokens, last.depth)
      else rest
  }

  lemma CrawlTraceUnfold(net: Net, page: Url, body: seq<Token>, maxDepth: int)
    ensures CrawlTrace(net, page, body, maxDepth)
            == Run(net, page, body, maxDepth) + ChildrenTrace(net, Children(Run(net, page, body, maxDepth)), if maxDepth > 0 then maxDepth else 0)
  {
  }

  /** One more child crawled. */
  lemma ChildrenTraceNext(net: Net, kids: seq<Task>, k: int, bound: nat)
    requires 0 <= k < |kids|
    requires forall i :: 0 <= i < |kids| ==> 0 <= kids[i].depth < bound && net.get(kids[i].url.text).Body?
    ensures ChildrenTrace(net, kids[..k + 1], bound)
            == ChildrenTrace(net, kids[..k], bound) + CrawlTrace(net, kids[k].url, net.get(kids[k].url.text).tokens, kids[k].depth)
  {
    assert kids[..k + 1][..k] == kids[..k];
  }

  /** A sequential schedule of the goroutines: a task, then each task it
      started, depth first, each with the response fetched for it. It
      records exactly CrawlTrace. Every task calls Done once and each start
      was counted by Add, so the counter comes back to where it was before
      the task was counted. */
  method CrawlFrom(net: Net, page: Url, body: seq<Token>, group: CrawlState, maxDepth: int)
    modifies group
    ensures group.trace == old(group.trace) + CrawlTrace(net, page, body, maxDepth)
    ensures group.pending == old(group.pending) - 1
    ensures maxDepth == 0 ==> group.trace == old(group.trace)
    decreases if maxDepth > 0 then maxDepth else 0
  {
    var children := CreateSitemap(net, body, page, group, maxDepth);
    ChildDepths(net, page, body, maxDepth);
    ghost var bound: nat := if maxDepth > 0 then maxDepth else 0;
    ghost var start := group.trace;
    ghost var own := Run(net, page, body, maxDepth);
    CrawlTraceUnfold(net, page, body, maxDepth);
    for k := 0 to |children|
      invariant group.pending == old(group.pending) + |children| - 1 - k
      invariant group.trace == start + ChildrenTrace(net, children[..k], bound)
    {
      var child := children[k];
      ChildrenTraceNext(net, children, k, bound);
      ghost var done := ChildrenTrace(net, children[..k], bound);
      ghost var next := CrawlTrace(net, child.url, net.get(child.url.text).tokens, child.depth);
      CrawlFrom(net, child.url, net.get(child.url.text).tokens, group, child.depth);
      AppendAssoc(start, done, next);
    }
    assert children[..|children|] == children;
    AppendAssoc(old(group.trace), own, ChildrenTrace(net, children, bound));
  }

  /** main: parse the seed and fetch it (either failure is fatal, before
      any crawling), count the first task, crawl, wait for the counter to
      reach zero, then aggregate what was sent on the sitemap channel. */
  method Generate(net: Net, seed: string, maxDepth: int) returns (sitemap: Option<seq<SitemapUrl>>, ghost trace: seq<Event>)
    ensures net.parse(seed).None? ==> sitemap.None?
    ensures net.parse(seed).Some? ==> (sitemap.None? <==> net.get(net.parse(seed).value.text).Failed?)
    // a fatal seed: nothing is crawled
    ensures sitemap.None? ==> trace == []
    // otherwise the trace is the whole depth-first crawl from the seed's page
    ensures sitemap.Some? ==>
              var page := net.parse(seed).value;
              trace == CrawlTrace(net, page, net.get(page.text).tokens, maxDepth)
    ensures sitemap.Some? ==> Distinct(sitemap.value)
    ensures sitemap.Some? ==> forall loc :: SitemapUrl(loc) in sitemap.value <==> Found(loc) in trace
    ensures sitemap.Some? && maxDepth == 0 ==> sitemap.value == []
  {
    var u := net.parse(seed);
    if u.None? {
      return None, [];
    }
    var response := net.get(u.value.text);
    if response.Failed? {
      return None, [];
    }
    var group := new CrawlState();
    group.Add(1);
    CrawlFrom(net, u.value, response.tokens, group, maxDepth);
    assert group.pending == 0;
    trace := group.trace;
    var urls := Assemble(Sent(group.trace));
    sitemap := Some(urls);
  }
}
