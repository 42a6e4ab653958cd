/** The base element of a page: the last `<base href>` that parses wins,
    and an anchor sees only the base elements before it. (The HTML Living
    Standard takes the first base element instead; the crawler does not.) */
module BaseElement {
  import opened Web
  import opened Page

  /** The href values among attrs, in order. */
  function Hrefs(attrs: seq<Attribute>): seq<string>
    decreases |attrs|
  {
    if attrs == [] then []
    else (if attrs[0].key == "href" then [attrs[0].val] else []) + Hrefs(attrs[1..])
  }

  /** The href values of the `<base>` start tags of a token stream, in
      document order, up to the end of the input. */
  function BaseHrefs(ts: seq<Token>): seq<string>
    decreases |ts|
  {
    if ts == [] || ts[0].ErrorToken? then []
    else
      var own := if ts[0].StartTag? && ts[0].name == "base" then Hrefs(ts[0].attrs) else [];
      own + BaseHrefs(ts[1..])
  }

  /** The text of the last href that parses, read from the end; `initial`
      when none does. */
  function LastParsed(parse: string -> Option<Url>, hrefs: seq<string>, initial: string): string
    decreases |hrefs|
  {
    if hrefs == [] then initial
    else match parse(hrefs[|hrefs| - 1])
      case Some(u) => u.text
      case None => LastParsed(parse, hrefs[..|hrefs| - 1], initial)
  }

  lemma {:induction false} LastParsedAppend(parse: string -> Option<Url>, xs: seq<string>, ys: seq<string>, initial: string)
    ensures LastParsed(parse, xs + ys, initial) == LastParsed(parse, ys, LastParsed(parse, xs, initial))
    decreases |ys|
  {
    if ys == [] {
      assert xs + ys == xs;
    } else {
      var zs := xs + ys;
      assert zs[|zs| - 1] == ys[|ys| - 1];
      assert zs[..|zs| - 1] == xs + ys[..|ys| - 1];
      LastParsedAppend(parse, xs, ys[..|ys| - 1], initial);
    }
  }

  /** The attribute loop of a `<base>` tag leaves the text of its last
      href that parses, or the base element it started with. */
  lemma {:induction false} BaseLastWins(parse: string -> Option<Url>, st: State, attrs: seq<Attribute>)
    ensures Base(parse, st, attrs).baseElement == LastParsed(parse, Hrefs(attrs), st.baseElement)
    ensures Base(parse, st, attrs).depth == st.depth
    decreases |attrs|
  {
    if attrs != [] {
      var a := attrs[0];
      var own := if a.key == "href" then [a.val] else [];
      var next := BaseStep(parse, st, a);
      BaseLastWins(parse, next, attrs[1..]);
      LastParsedAppend(parse, own, Hrefs(attrs[1..]), st.baseElement);
      if a.key == "href" {
        assert own[..0] == [];
      }
    }
  }

  /** The parse errors reported for hrefs, one per href that does not
      parse, in order. */
  function Reports(parse: string -> Option<Url>, hrefs: seq<string>): (r: seq<Event>)
    ensures |r| <= |hrefs|
    decreases |hrefs|
  {
    if hrefs == [] then []
    else (if parse(hrefs[0]).None? then [Reported(ParseError(hrefs[0]))] else []) + Reports(parse, hrefs[1..])
  }

  /** The attribute loop of a `<base>` tag appends exactly one parse error
      per href that does not parse, in attribute order, and nothing else. */
  lemma {:induction false} BaseReports(parse: string -> Option<Url>, st: State, attrs: seq<Attribute>)
    ensures Base(parse, st, attrs).events == st.events + Reports(parse, Hrefs(attrs))
    decreases |attrs|
  {
    if attrs == [] {
      assert st.events + [] == st.events;
    } else {
      var a := attrs[0];
      var next := BaseStep(parse, st, a);
      var rest := Reports(parse, Hrefs(attrs[1..]));
      BaseReports(parse, next, attrs[1..]);
      if a.key == "href" {
        var hs := [a.val] + Hrefs(attrs[1..]);
        assert hs[1..] == Hrefs(attrs[1..]);
        assert Reports(parse, hs) == (if parse(a.val).None? then [Reported(ParseError(a.val))] else []) + rest;
        if parse(a.val).None? {
          assert next.events + rest == st.events + ([Reported(ParseError(a.val))] + rest);
        }
      } else {
        assert Hrefs(attrs) == Hrefs(attrs[1..]);
      }
    }
  }

  /** Anchors never change the base element. */
  lemma {:induction false} AnchorKeepsBase(v: Variant, net: Net, page: Url, st: State, attrs: seq<Attribute>)
    ensures Anchor(v, net, page, st, attrs).baseElement == st.baseElement
    decreases |attrs|
  {
    if attrs != [] {
      var (next, stop) := Follow(v, net, page, st, attrs[0]);
      if !stop {
        AnchorKeepsBase(v, net, page, next, attrs[1..]);
      }
    }
  }

  /** Over a page: the base element in force after a prefix of the tokens
      is the text of the last base href in it that parses. */
  lemma {:induction false} TokensLastWins(v: Variant, net: Net, page: Url, st: State, ts: seq<Token>)
    ensures Tokens(v, net, page, st, ts).baseElement == LastParsed(net.parse, BaseHrefs(ts), st.baseElement)
    decreases |ts|
  {
    if ts != [] && !ts[0].ErrorToken? {
      var t := ts[0];
      var next := TokenStep(v, net, page, st, t);
      var own := if t.StartTag? && t.name == "base" then Hrefs(t.attrs) else [];
      if t.StartTag? {
        var afterAnchor := if t.name == "a" then Anchor(v, net, page, st, t.attrs) else st;
        if t.name == "a" {
          AnchorKeepsBase(v, net, page, st, t.attrs);
        }
        if t.name == "base" {
          BaseLastWins(net.parse, afterAnchor, t.attrs);
        }
      }
      assert next.baseElement == LastParsed(net.parse, own, st.baseElement);
      TokensLastWins(v, net, page, next, ts[1..]);
      LastParsedAppend(net.parse, own, BaseHrefs(ts[1..]), st.baseElement);
    }
  }

  /** The token loop over xs + ys is the loop over ys continued from the
      state the loop over xs leaves, when xs does not end the input. */
  lemma {:induction false} TokensSplit(v: Variant, net: Net, page: Url, st: State, xs: seq<Token>, ys: seq<Token>)
    requires forall i :: 0 <= i < |xs| ==> !xs[i].ErrorToken?
    ensures Tokens(v, net, page, st, xs + ys) == Tokens(v, net, page, Tokens(v, net, page, st, xs), ys)
    decreases |xs|
  {
    if xs == [] {
      assert xs + ys == ys;
    } else {
      assert (xs + ys)[0] == xs[0];
      assert (xs + ys)[1..] == xs[1..] + ys;
      TokensSplit(v, net, page, TokenStep(v, net, page, st, xs[0]), xs[1..], ys);
    }
  }

  /** The anchor at position k is processed with the base element left by
      the last base href before it that parses (or scheme://host when
      there is none), and the tokens after it continue from there. */
  lemma AnchorSeesEarlierBases(v: Variant, net: Net, page: Url, maxDepth: int, start: seq<Event>, ts: seq<Token>, k: int)
    requires 0 <= k < |ts| && ts[k].StartTag? && ts[k].name == "a"
    requires forall i :: 0 <= i < k ==> !ts[i].ErrorToken?
    ensures var before := Tokens(v, net, page, State("", maxDepth, start), ts[..k]);
            var base := LastParsed(net.parse, BaseHrefs(ts[..k]), "");
            && before.baseElement == base
            && Tokens(v, net, page, State("", maxDepth, start), ts)
               == Tokens(v, net, page, Anchor(v, net, page, before, ts[k].attrs), ts[k + 1..])
  {
    var st := State("", maxDepth, start);
    var before := Tokens(v, net, page, st, ts[..k]);
    TokensLastWins(v, net, page, st, ts[..k]);
    assert ts == ts[..k] + ts[k..];
    TokensSplit(v, net, page, st, ts[..k], ts[k..]);
    assert ts[k..][1..] == ts[k + 1..];
  }
}
