/** Properties of a page's trace that every step of the fold keeps: the
    countdown of child depths and the order in which a link is sent,
    parsed, fetched and handed to a child. */
module Invariants {
  import opened Web
  import opened Links
  import opened Page

  /** A property of the fold's state that holds after the token loop
      whenever each anchor attribute and each base attribute keeps it. */
  lemma {:induction false} TokensPreserve(v: Variant, net: Net, page: Url, inv: State -> bool, st: State, ts: seq<Token>)
    requires forall s, a :: inv(s) ==> inv(Follow(v, net, page, s, a).0)
    requires forall s, a :: inv(s) ==> inv(BaseStep(net.parse, s, a))
    requires inv(st)
    ensures inv(Tokens(v, net, page, st, ts))
    decreases |ts|
  {
    if ts == [] || ts[0].ErrorToken? {
    } else {
      var t := ts[0];
      var next := TokenStep(v, net, page, st, t);
      if t.StartTag? {
        var afterAnchor := if t.name == "a" then Anchor(v, net, page, st, t.attrs) else st;
        if t.name == "a" {
          AnchorPreserve(v, net, page, inv, st, t.attrs);
        }
        if t.name == "base" {
          BasePreserve(net.parse, inv, afterAnchor, t.attrs);
        }
      }
      TokensPreserve(v, net, page, inv, next, ts[1..]);
    }
  }

  lemma {:induction false} AnchorPreserve(v: Variant, net: Net, page: Url, inv: State -> bool, st: State, attrs: seq<Attribute>)
    requires forall s, a :: inv(s) ==> inv(Follow(v, net, page, s, a).0)
    requires inv(st)
    ensures inv(Anchor(v, net, page, st, attrs))
    decreases |attrs|
  {
    if attrs != [] {
      var (next, stop) := Follow(v, net, page, st, attrs[0]);
      if !stop {
        AnchorPreserve(v, net, page, inv, next, attrs[1..]);
      }
    }
  }

  lemma {:induction false} BasePreserve(parse: string -> Option<Url>, inv: State -> bool, st: State, attrs: seq<Attribute>)
    requires forall s, a :: inv(s) ==> inv(BaseStep(parse, s, a))
    requires inv(st)
    ensures inv(Base(parse, st, attrs))
    decreases |attrs|
  {
    if attrs != [] {
      BasePreserve(parse, inv, BaseStep(parse, st, attrs[0]), attrs[1..]);
    }
  }

  // ---------------------------------------------------------------------
  // Depth: each child gets the decremented depth.

  /** Starting from depth d0, the children started so far got d0 - 1,
      d0 - 2, ... in order, and the depth left is d0 minus their number,
      never below zero unless it started there. */
  ghost predicate Countdown(d0: int, st: State) {
    var kids := Children(st.events);
    && st.depth <= d0
    && |kids| == d0 - st.depth
    && (st.depth >= 0 || st.depth == d0)
    && forall k :: 0 <= k < |kids| ==> kids[k].depth == d0 - 1 - k
  }

  lemma AppendCountdown(d0: int, st: State, e: Event)
    requires Countdown(d0, st) && !e.Spawned?
    ensures Countdown(d0, st.(events := st.events + [e]))
  {
    ChildrenAppend(st.events, e);
  }

  lemma SpawnCountdown(d0: int, st: State, next: Url)
    requires Countdown(d0, st)
    ensures Countdown(d0, Spawn(st, next))
  {
    if st.depth > 0 {
      ChildrenAppend(st.events, Spawned(Task(next, st.depth - 1)));
    }
  }

  lemma FollowCountdown(v: Variant, net: Net, page: Url, d0: int, st: State, a: Attribute)
    requires Countdown(d0, st)
    ensures Countdown(d0, Follow(v, net, page, st, a).0)
  {
    match Discover(net.parse, page, st.baseElement, a)
    case None =>
    case Some(link) =>
      var found := st.(events := st.events + [Found(link)]);
      AppendCountdown(d0, st, Found(link));
      match net.parse(link)
      case None =>
        AppendCountdown(d0, found, Reported(ParseError(link)));
      case Some(next) =>
        if v.Package? {
          SpawnCountdown(d0, found, next);
        } else {
          var requested := found.(events := found.events + [Requested(next.text)]);
          AppendCountdown(d0, found, Requested(next.text));
          if net.get(next.text).Failed? {
            AppendCountdown(d0, requested, Reported(FetchError(next.text)));
          } else {
            SpawnCountdown(d0, requested, next);
          }
        }
  }

  lemma BaseStepCountdown(parse: string -> Option<Url>, d0: int, st: State, a: Attribute)
    requires Countdown(d0, st)
    ensures Countdown(d0, BaseStep(parse, st, a))
  {
    if a.key == "href" && parse(a.val).None? {
      AppendCountdown(d0, st, Reported(ParseError(a.val)));
    }
  }

  /** Child spawning over a whole page: the k-th child started gets depth
      maxDepth - 1 - k, so no child gets a negative depth and at most
      maxDepth children are started (none when maxDepth is not positive). */
  lemma RunCountdown(v: Variant, net: Net, page: Url, baseElement: string, maxDepth: int, start: seq<Event>, ts: seq<Token>)
    requires Children(start) == []
    ensures var kids := Children(Tokens(v, net, page, State(baseElement, maxDepth, start), ts).events);
            && |kids| <= (if maxDepth > 0 then maxDepth else 0)
            && forall k :: 0 <= k < |kids| ==> 0 <= kids[k].depth == maxDepth - 1 - k
  {
    forall s: State, a: Attribute | Countdown(maxDepth, s) ensures Countdown(maxDepth, Follow(v, net, page, s, a).0) {
      FollowCountdown(v, net, page, maxDepth, s, a);
    }
    forall s: State, a: Attribute | Countdown(maxDepth, s) ensures Countdown(maxDepth, BaseStep(net.parse, s, a)) {
      BaseStepCountdown(net.parse, maxDepth, s, a);
    }
    TokensPreserve(v, net, page, s => Countdown(maxDepth, s), State(baseElement, maxDepth, start), ts);
  }

  // ---------------------------------------------------------------------
  // Order: what precedes each request, error and child in the trace.

  /** Why the i-th event of a trace happened. A child follows the link it
      was made from (in main.go, with the successful request in between);
      in main.go every request follows the link it fetches, and the
      package version makes no request but its own page's (the first
      event); a failed request is reported right after it; a parse error
      names a string the parser rejects. */
  ghost predicate Justified(v: Variant, net: Net, events: seq<Event>, i: int)
    requires 0 <= i < |events|
  {
    match events[i]
    case Found(_) => true
    case Spawned(t) =>
      if v.Package? then
        i >= 1 && events[i - 1].Found? && net.parse(events[i - 1].location) == Some(t.url)
      else
        && i >= 2 && events[i - 1] == Requested(t.url.text) && net.get(t.url.text).Body?
        && events[i - 2].Found? && net.parse(events[i - 2].location) == Some(t.url)
    case Requested(x) =>
      if v.Package? then i == 0
      else
        && i >= 1 && events[i - 1].Found?
        && net.parse(events[i - 1].location).Some? && net.parse(events[i - 1].location).value.text == x
    case Reported(ParseError(x)) => net.parse(x).None?
    case Reported(FetchError(x)) => i >= 1 && events[i - 1] == Requested(x) && net.get(x).Failed?
  }

  ghost predicate Ordered(v: Variant, net: Net, events: seq<Event>) {
    forall i :: 0 <= i < |events| ==> Justified(v, net, events, i)
  }

  lemma OrderedAppend(v: Variant, net: Net, events: seq<Event>, e: Event)
    requires Ordered(v, net, events)
    requires Justified(v, net, events + [e], |events|)
    ensures Ordered(v, net, events + [e])
  {
    var longer := events + [e];
    forall i | 0 <= i < |longer| ensures Justified(v, net, longer, i) {
      if i < |events| {
        assert longer[i] == events[i];
        assert i >= 1 ==> longer[i - 1] == events[i - 1];
        assert i >= 2 ==> longer[i - 2] == events[i - 2];
        assert Justified(v, net, events, i);
      }
    }
  }

  lemma FoundOrdered(v: Variant, net: Net, events: seq<Event>, link: string)
    requires Ordered(v, net, events)
    ensures Ordered(v, net, events + [Found(link)])
  {
    OrderedAppend(v, net, events, Found(link));
  }

  lemma SpawnOrdered(v: Variant, net: Net, st: State, link: string, next: Url)
    requires Ordered(v, net, st.events)
    requires net.parse(link) == Some(next)
    requires v.Package? ==> |st.events| >= 1 && st.events[|st.events| - 1] == Found(link)
    requires v.MainCopy? ==>
               && |st.events| >= 2 && st.events[|st.events| - 1] == Requested(next.text)
               && st.events[|st.events| - 2] == Found(link) && net.get(next.text).Body?
    ensures Ordered(v, net, Spawn(st, next).events)
  {
    if st.depth > 0 {
      OrderedAppend(v, net, st.events, Spawned(Task(next, st.depth - 1)));
    }
  }

  lemma FollowOrdered(v: Variant, net: Net, page: Url, st: State, a: Attribute)
    requires Ordered(v, net, st.events)
    ensures Ordered(v, net, Follow(v, net, page, st, a).0.events)
  {
    match Discover(net.parse, page, st.baseElement, a)
    case None =>
    case Some(link) =>
      var found := st.(events := st.events + [Found(link)]);
      FoundOrdered(v, net, st.events, link);
      match net.parse(link)
      case None =>
        OrderedAppend(v, net, found.events, Reported(ParseError(link)));
      case Some(next) =>
        if v.Package? {
          SpawnOrdered(v, net, found, link, next);
        } else {
          var requested := found.(events := found.events + [Requested(next.text)]);
          OrderedAppend(v, net, found.events, Requested(next.text));
          if net.get(next.text).Failed? {
            OrderedAppend(v, net, requested.events, Reported(FetchError(next.text)));
          } else {
            SpawnOrdered(v, net, requested, link, next);
          }
        }
  }

  lemma BaseStepOrdered(v: Variant, net: Net, st: State, a: Attribute)
    requires Ordered(v, net, st.events)
    ensures Ordered(v, net, BaseStep(net.parse, st, a).events)
  {
    if a.key == "href" && net.parse(a.val).None? {
      OrderedAppend(v, net, st.events, Reported(ParseError(a.val)));
    }
  }

  /** Over a whole page: a link is sent before it is parsed again, fetched
      or handed to a child, so it is recorded even when what follows
      fails; see Justified. */
  lemma RunOrdered(v: Variant, net: Net, page: Url, st: State, ts: seq<Token>)
    requires Ordered(v, net, st.events)
    ensures Ordered(v, net, Tokens(v, net, page, st, ts).events)
  {
    forall s: State, a: Attribute | Ordered(v, net, s.events) ensures Ordered(v, net, Follow(v, net, page, s, a).0.events) {
      FollowOrdered(v, net, page, s, a);
    }
    forall s: State, a: Attribute | Ordered(v, net, s.events) ensures Ordered(v, net, BaseStep(net.parse, s, a).events) {
      BaseStepOrdered(v, net, s, a);
    }
    TokensPreserve(v, net, page, (s: State) => Ordered(v, net, s.events), st, ts);
  }
}
