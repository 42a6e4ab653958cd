/** The per-page step of the crawler as a fold over the page's token
    stream. Stripped of its goroutines, one call of CreateSitemap
    (internal/sitemap/sitemap.go) or createSitemap (main.go) walks the
    tokens once, carrying two mutable locals, the base element and the
    remaining depth, and produces a trace of events: links sent on the
    sitemap channel, errors sent on the error channel, HTTP requests and
    child tasks started with `go`. */
module Page {
  import opened Web
  import opened Links

  /** A child task: the URL handed to the new goroutine and its depth. */
  datatype Task = Task(url: Url, depth: int)

  /** The errors sent on the error channel: url.Parse rejected `input`,
      or http.Get of `url` failed. */
  datatype Failure = ParseError(input: string) | FetchError(url: string)

  datatype Event =
    | Found(location: string)    // a URL sent on the sitemap channel
    | Reported(failure: Failure) // an error sent on the error channel
    | Requested(url: string)     // an HTTP GET of url
    | Spawned(task: Task)        // a task counted on the WaitGroup and started

  /** Which copy of the step: Package is CreateSitemap in
      internal/sitemap/sitemap.go, whose child fetches its own page;
      MainCopy is createSitemap in main.go, which fetches the child's page
      before starting it and abandons the anchor when that fetch fails. */
  datatype Variant = Package | MainCopy

  /** The locals of one call: baseElement, maxDepth, and what it has done so far. */
  datatype State = State(baseElement: string, depth: int, events: seq<Event>)

  /** The tasks started, in order. */
  function Children(events: seq<Event>): (tasks: seq<Task>)
    ensures |tasks| <= |events|
  {
    if events == [] then []
    else
      var last := events[|events| - 1];
      Children(events[..|events| - 1]) + (if last.Spawned? then [last.task] else [])
  }

  lemma ChildrenAppend(events: seq<Event>, e: Event)
    ensures Children(events + [e]) == Children(events) + (if e.Spawned? then [e.task] else [])
  {
    assert (events + [e])[..|events|] == events;
  }

  /** While depth lasts, the depth drops by one and a child task for next
      starts with the depth left (internal/sitemap/sitemap.go:97-101,
      main.go:164-168); at zero or below nothing happens. */
  function Spawn(st: State, next: Url): (r: State)
    ensures r.baseElement == st.baseElement && st.events <= r.events
    ensures st.depth > 0 ==> r.depth == st.depth - 1 && Children(r.events) == Children(st.events) + [Task(next, r.depth)]
    ensures st.depth <= 0 ==> r == st
  {
    if st.depth > 0 then
      ChildrenAppend(st.events, Spawned(Task(next, st.depth - 1)));
      State(st.baseElement, st.depth - 1, st.events + [Spawned(Task(next, st.depth - 1))])
    else st
  }

  /** One attribute of an `<a>` start tag; the flag is true when the
      attribute loop is left with `break`. */
  function Follow(v: Variant, net: Net, page: Url, st: State, a: Attribute): (r: (State, bool))
    ensures r.0.baseElement == st.baseElement && st.events <= r.0.events
    // the depth drops by one for a child, never below zero
    ensures r.0.depth == st.depth || 0 <= r.0.depth == st.depth - 1
    // only main.go leaves the loop, and only after reporting a fetch error, with no child started
    ensures r.1 ==> && v.MainCopy? && r.0.depth == st.depth
                    && |r.0.events| > 0 && r.0.events[|r.0.events| - 1].Reported?
                    && r.0.events[|r.0.events| - 1].failure.FetchError?
                    && Children(r.0.events) == Children(st.events)
  {
    match Discover(net.parse, page, st.baseElement, a)
    case None => (st, false)
    case Some(link) =>
      var found := st.(events := st.events + [Found(link)]);
      match net.parse(link)
      case None => (found.(events := found.events + [Reported(ParseError(link))]), false)
      case Some(next) =>
        if v.Package? then (Spawn(found, next), false)
        else
          ChildrenAppend(st.events, Found(link));
          Fetch(net, found, next)
  }

  /** Follow when Discover filters the attribute out. */
  lemma FollowSkipped(v: Variant, net: Net, page: Url, st: State, a: Attribute)
    requires Discover(net.parse, page, st.baseElement, a).None?
    ensures Follow(v, net, page, st, a) == (st, false)
  {
  }

  /** Follow when the link is sent but does not parse again. */
  lemma FollowUnparsed(v: Variant, net: Net, page: Url, st: State, a: Attribute, link: string)
    requires Discover(net.parse, page, st.baseElement, a) == Some(link) && net.parse(link).None?
    ensures Follow(v, net, page, st, a) == (st.(events := st.events + [Found(link)] + [Reported(ParseError(link))]), false)
  {
  }

  /** Follow when the link is sent and parses again. */
  lemma FollowParsed(v: Variant, net: Net, page: Url, st: State, a: Attribute, link: string, next: Url)
    requires Discover(net.parse, page, st.baseElement, a) == Some(link) && net.parse(link) == Some(next)
    ensures var found := st.(events := st.events + [Found(link)]);
            Follow(v, net, page, st, a) == if v.Package? then (Spawn(found, next), false) else Fetch(net, found, next)
  {
  }

  /** main.go only: fetch the child's page before starting it; on failure
      report it and leave the attribute loop. */
  function Fetch(net: Net, st: State, next: Url): (r: (State, bool))
    ensures r.0.baseElement == st.baseElement
    ensures |r.0.events| > |st.events| && r.0.events[..|st.events| + 1] == st.events + [Requested(next.text)]
    ensures r.1 <==> net.get(next.text).Failed?
    ensures r.1 ==> r.0.depth == st.depth && r.0.events[|r.0.events| - 1] == Reported(FetchError(next.text))
    // a failed fetch starts no child
    ensures r.1 ==> Children(r.0.events) == Children(st.events)
    ensures !r.1 ==> r.0 == Spawn(st.(events := st.events + [Requested(next.text)]), next)
  {
    var requested := st.(events := st.events + [Requested(next.text)]);
    if net.get(next.text).Failed? then
      ChildrenAppend(st.events, Requested(next.text));
      ChildrenAppend(requested.events, Reported(FetchError(next.text)));
      (requested.(events := requested.events + [Reported(FetchError(next.text))]), true)
    else (Spawn(requested, next), false)
  }

  /** The attribute loop of an `<a>` start tag. */
  function Anchor(v: Variant, net: Net, page: Url, st: State, attrs: seq<Attribute>): (r: State)
    ensures r.baseElement == st.baseElement && st.events <= r.events && r.depth <= st.depth
    ensures st.depth >= 0 ==> r.depth >= 0
    decreases |attrs|
  {
    if attrs == [] then st
    else
      var (next, stop) := Follow(v, net, page, st, attrs[0]);
      if stop then next else Anchor(v, net, page, next, attrs[1..])
  }

  /** One turn of the attribute loop of an `<a>` start tag. */
  lemma AnchorNext(v: Variant, net: Net, page: Url, st: State, attrs: seq<Attribute>, next: State, stop: bool)
    requires attrs != [] && (next, stop) == Follow(v, net, page, st, attrs[0])
    ensures Anchor(v, net, page, st, attrs) == if stop then next else Anchor(v, net, page, next, attrs[1..])
  {
  }

  lemma AppendAssoc(a: seq<Event>, b: seq<Event>, c: seq<Event>)
    ensures a + b + c == a + (b + c)
  {
  }

  /** The tasks started accumulate across two stretches of a trace. */
  lemma ChildrenGrow(done: seq<Event>, mid: seq<Event>, after: seq<Event>, spawned: seq<Task>, more: seq<Task>)
    requires Children(mid) == Children(done) + spawned && Children(after) == Children(mid) + more
    ensures Children(after) == Children(done) + (spawned + more)
  {
  }

  /** One attribute of a `<base>` start tag: an href that parses replaces
      the base element, one that does not is reported. */
  function BaseStep(parse: string -> Option<Url>, st: State, a: Attribute): (r: State)
    ensures r.depth == st.depth && st.events <= r.events
    // the only events are error reports
    ensures forall i :: |st.events| <= i < |r.events| ==> r.events[i].Reported?
    ensures r.baseElement != st.baseElement ==> a.key == "href" && parse(a.val).Some? && r.baseElement == parse(a.val).value.text
    // an href that fails to parse is reported
    ensures a.key == "href" && parse(a.val).None? ==> r.events == st.events + [Reported(ParseError(a.val))]
  {
    if a.key != "href" then st
    else match parse(a.val)
      case None => st.(events := st.events + [Reported(ParseError(a.val))])
      case Some(b) => st.(baseElement := b.text)
  }

  /** The attribute loop of a `<base>` start tag. */
  function Base(parse: string -> Option<Url>, st: State, attrs: seq<Attribute>): (r: State)
    ensures r.depth == st.depth && st.events <= r.events
    ensures forall i :: |st.events| <= i < |r.events| ==> r.events[i].Reported?
    decreases |attrs|
  {
    if attrs == [] then st
    else Base(parse, BaseStep(parse, st, attrs[0]), attrs[1..])
  }

  /** One token of the `switch`: start tags named `a` and `base` are
      handled, everything else is skipped. */
  function TokenStep(v: Variant, net: Net, page: Url, st: State, t: Token): (r: State)
    ensures st.events <= r.events && r.depth <= st.depth
    ensures st.depth >= 0 ==> r.depth >= 0
    ensures (t.StartTag? ==> t.name != "a" && t.name != "base") ==> r == st
    ensures t.StartTag? && t.name == "a" ==> r.baseElement == st.baseElement
    ensures t.StartTag? && t.name == "base" ==> r.depth == st.depth
  {
    match t
    case StartTag(name, attrs) =>
      var afterAnchor := if name == "a" then Anchor(v, net, page, st, attrs) else st;
      if name == "base" then Base(net.parse, afterAnchor, attrs) else afterAnchor
    case _ => st
  }

  /** The token loop, left at the first ErrorToken (`break loop`) or at the
      end of the stream. */
  function Tokens(v: Variant, net: Net, page: Url, st: State, ts: seq<Token>): (r: State)
    ensures st.events <= r.events && r.depth <= st.depth
    ensures st.depth >= 0 ==> r.depth >= 0
    decreases |ts|
  {
    if ts == [] || ts[0].ErrorToken? then st
    else Tokens(v, net, page, TokenStep(v, net, page, st, ts[0]), ts[1..])
  }

  /** The state shared by all tasks of a crawl: the counter of
      parallelGroup (a sync.WaitGroup) and everything the tasks did, in
      order: what they sent on the two channels, the requests they made
      and the tasks they started. */
  class CrawlState {
    var pending: int
    var trace: seq<Event>

    constructor ()
      ensures pending == 0 && trace == []
    {
      pending := 0;
      trace := [];
    }

    /** WaitGroup.Add */
    method Add(n: int)
      modifies this
      ensures pending == old(pending) + n && trace == old(trace)
    {
      pending := pending + n;
    }

    /** WaitGroup.Done */
    method Done()
      modifies this
      ensures pending == old(pending) - 1 && trace == old(trace)
    {
      pending := pending - 1;
    }

    /** A channel send, a request or a `go` statement. */
    method Record(e: Event)
      modifies this
      ensures trace == old(trace) + [e] && pending == old(pending)
    {
      trace := trace + [e];
    }
  }

  /** Record one event of a task whose part of the trace so far is done:
      the task's part grows by that event, and the tasks it started grow
      only when the event starts one. */
  method Emit(group: CrawlState, e: Event, ghost prefix: seq<Event>, ghost done: seq<Event>) returns (ghost doneOut: seq<Event>)
    requires group.trace == prefix + done
    modifies group
    ensures doneOut == done + [e]
    ensures group.trace == prefix + doneOut && group.pending == old(group.pending)
    ensures Children(doneOut) == Children(done) + (if e.Spawned? then [e.task] else [])
    // the first clause again, without the conditional: callers recording a
    // non-spawn event use it directly, which keeps their proofs cheap
    ensures !e.Spawned? ==> Children(doneOut) == Children(done)
  {
    group.Record(e);
    doneOut := done + [e];
    assert prefix + doneOut == prefix + done + [e];
    ChildrenAppend(done, e);
  }

  /** The attribute loop of a `<base>` start tag, as both copies run it. */
  method BaseTag(parse: string -> Option<Url>, group: CrawlState, baseElement: string, attrs: seq<Attribute>,
                 ghost depth: int, ghost prefix: seq<Event>, ghost done: seq<Event>)
    returns (baseOut: string, ghost doneOut: seq<Event>)
    requires group.trace == prefix + done
    modifies group
    ensures State(baseOut, depth, doneOut) == Base(parse, State(baseElement, depth, done), attrs)
    ensures group.trace == prefix + doneOut && group.pending == old(group.pending)
    ensures Children(doneOut) == Children(done)
  {
    baseOut, doneOut := baseElement, done;
    for j := 0 to |attrs|
      invariant Base(parse, State(baseOut, depth, doneOut), attrs[j..]) == Base(parse, State(baseElement, depth, done), attrs)
      invariant group.trace == prefix + doneOut && group.pending == old(group.pending)
      invariant Children(doneOut) == Children(done)
    {
      var a := attrs[j];
      assert attrs[j..][1..] == attrs[j + 1..];
      if a.key == "href" {
        var parsed := parse(a.val);
        if parsed.None? {
          doneOut := Emit(group, Reported(ParseError(a.val)), prefix, doneOut);
          continue;
        }
        baseOut := parsed.value.text;
      }
    }
  }

  /** While depth lasts, decrement the depth, count one task on the
      WaitGroup and start it, as both copies do. */
  method SpawnChild(group: CrawlState, ghost baseElement: string, depth: int, next: Url,
                    ghost prefix: seq<Event>, ghost done: seq<Event>)
    returns (depthOut: int, spawned: seq<Task>, ghost doneOut: seq<Event>)
    requires group.trace == prefix + done
    modifies group
    ensures State(baseElement, depthOut, doneOut) == Spawn(State(baseElement, depth, done), next)
    ensures group.trace == prefix + doneOut
    ensures Children(doneOut) == Children(done) + spawned
    ensures group.pending == old(group.pending) + |spawned|
  {
    depthOut, spawned, doneOut := depth, [], done;
    if depth > 0 {
      depthOut := depth - 1;
      group.Add(1);
      var child := Task(next, depthOut);
      doneOut := Emit(group, Spawned(child), prefix, done);
      spawned := [child];
    }
  }
}
