/** The aggregator of main.go: the goroutine that drains the sitemap
    channel into a map keyed by location, and the loop that flattens the
    map into the sitemap's list of URLs. */
module Aggregate {
  import opened Page

  /** URL{Location: location}; its XMLName is always the zero value. */
  datatype SitemapUrl = SitemapUrl(location: string)

  /** Every entry is stored under its own location. */
  ghost predicate Keyed(m: map<string, SitemapUrl>) {
    forall loc :: loc in m ==> m[loc].location == loc
  }

  /** The URLs sent on the sitemap channel, in order. */
  function Sent(events: seq<Event>): (urls: seq<SitemapUrl>)
    ensures forall loc :: SitemapUrl(loc) in urls <==> Found(loc) in events
    decreases |events|
  {
    if events == [] then []
    else
      var rest := Sent(events[1..]);
      assert forall e :: e in events <==> e == events[0] || e in events[1..];
      if events[0].Found? then [SitemapUrl(events[0].location)] + rest else rest
  }

  /** The receive loop of main.go:58-62: every URL received is stored in
      the map under its own location, a later one replacing an earlier. */
  method Collect(received: seq<SitemapUrl>) returns (m: map<string, SitemapUrl>)
    ensures Keyed(m)
    ensures forall loc :: loc in m <==> SitemapUrl(loc) in received
  {
    m := map[];
    for i := 0 to |received|
      invariant Keyed(m)
      invariant forall loc :: loc in m <==> SitemapUrl(loc) in received[..i]
    {
      assert received[..i + 1] == received[..i] + [received[i]];
      m := m[received[i].location := received[i]];
    }
    assert received[..|received|] == received;
  }

  /** Receiving a location that is already in the map leaves the map as it was. */
  lemma ReinsertUnchanged(m: map<string, SitemapUrl>, url: SitemapUrl)
    requires Keyed(m) && url.location in m
    ensures m[url.location := url] == m
  {
    assert m[url.location] == url;
  }

  /** No two URLs of the list share a location. */
  predicate Distinct(urls: seq<SitemapUrl>) {
    forall i, j :: 0 <= i < j < |urls| ==> urls[i].location != urls[j].location
  }

  /** The loop of main.go:91-93 that appends the map's entries to the
      sitemap's list: each entry once, in an order the model leaves open. */
  method Flatten(m: map<string, SitemapUrl>) returns (urls: seq<SitemapUrl>)
    requires Keyed(m)
    ensures |urls| == |m|
    ensures forall loc :: loc in m <==> SitemapUrl(loc) in urls
    ensures Distinct(urls)
  {
    var rest := m.Keys;
    urls := [];
    while rest != {}
      invariant rest <= m.Keys
      invariant |urls| + |rest| == |m|
      invariant forall i :: 0 <= i < |urls| ==> urls[i].location in m.Keys - rest && urls[i] == m[urls[i].location]
      invariant forall loc :: loc in m.Keys - rest ==> SitemapUrl(loc) in urls
      invariant forall i, j :: 0 <= i < j < |urls| ==> urls[i].location != urls[j].location
      decreases |rest|
    {
      var loc :| loc in rest;
      urls := urls + [m[loc]];
      rest := rest - {loc};
    }
  }

  /** The whole aggregation: every location sent appears in the list
      exactly once, and nothing else does. */
  method Assemble(received: seq<SitemapUrl>) returns (urls: seq<SitemapUrl>)
    ensures Distinct(urls)
    ensures forall loc :: SitemapUrl(loc) in urls <==> SitemapUrl(loc) in received
    ensures forall i :: 0 <= i < |urls| ==> urls[i] in received
    ensures received == [] ==> urls == []
  {
    var m := Collect(received);
    urls := Flatten(m);
    if received == [] {
      assert m.Keys == {};
    }
    forall i | 0 <= i < |urls| ensures urls[i] in received {
      var loc := urls[i].location;
      assert SitemapUrl(loc) in urls;
    }
  }
}
