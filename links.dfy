/** What one attribute of an `<a>` start tag contributes to the sitemap:
    the href filter, the effective base and the link built from them.
    The two copies of the crawler (internal/sitemap/sitemap.go and main.go)
    share this logic line for line. */
module Links {
  import opened Web

  /** The href filter: an `href` whose value is non-empty, is not "/" and
      is not a fragment. */
  predicate IsCandidate(a: Attribute) {
    a.key == "href" && |a.val| > 0 && a.val != "/" && !HasPrefix(a.val, "#")
  }

  /** The base a link is resolved against: the page's scheme://host, unless
      a non-empty base element is in force. */
  function EffectiveBase(page: Url, baseElement: string): (base: string)
    ensures |baseElement| > 0 ==> base == baseElement
    ensures |baseElement| == 0 ==> HasPrefix(base, page.scheme + "://") && base[|page.scheme| + 3..] == page.host
  {
    if |baseElement| > 0 then baseElement else page.scheme + "://" + page.host
  }

  /** The link an anchor attribute yields, or None when it is filtered out,
      points at the page's own path, or is an absolute http link outside
      the effective base. Relative links are joined by plain string
      concatenation, not by the resolution of RFC 3986 section 5.2. */
  function Discover(parse: string -> Option<Url>, page: Url, baseElement: string, a: Attribute): (link: Option<string>)
    // a link is produced exactly for the candidates that pass the self-path and scope tests
    ensures link.Some? <==>
              IsCandidate(a) && a.val != page.path &&
              (HasPrefix(a.val, "http") ==> HasPrefix(a.val, EffectiveBase(page, baseElement)))
    // a relative href is appended to the base verbatim
    ensures link.Some? && !HasPrefix(a.val, "http") ==> link.value == EffectiveBase(page, baseElement) + a.val
    // an absolute href takes the parser's canonical form, and the joined string when it does not parse
    ensures link.Some? && HasPrefix(a.val, "http") ==>
              link.value == (if parse(a.val).Some? then parse(a.val).value.text else EffectiveBase(page, baseElement) + a.val)
    // scope: the link starts with the base, or is the canonical form of an href that does
    ensures link.Some? ==>
              HasPrefix(link.value, EffectiveBase(page, baseElement)) ||
              (HasPrefix(a.val, EffectiveBase(page, baseElement)) && parse(a.val).Some? && link.value == parse(a.val).value.text)
  {
    if !IsCandidate(a) || a.val == page.path then None
    else
      var base := EffectiveBase(page, baseElement);
      if HasPrefix(a.val, "http") then
        if !HasPrefix(a.val, base) then None
        else match parse(a.val)
          case Some(full) => Some(full.text)
          case None => JoinedHasBase(base, a.val); Some(base + a.val)
      else
        JoinedHasBase(base, a.val);
        Some(base + a.val)
  }

  lemma JoinedHasBase(base: string, href: string)
    ensures HasPrefix(base + href, base)
  {
    assert (base + href)[..|base|] == base;
  }

  /** Concatenation keeps the double slash: `/p` under the base element
      `https://cdn.example/` becomes `https://cdn.example//p`. */
  lemma DoubleSlashUnderBaseElement(parse: string -> Option<Url>, page: Url)
    requires page.path != "/p"
    ensures Discover(parse, page, "https://cdn.example/", Attribute("href", "/p")) == Some("https://cdn.example//p")
  {
    assert "/p"[..1] == "/";
    assert !HasPrefix("/p", "http") && !HasPrefix("/p", "#") && "/p" != "/";
    assert IsCandidate(Attribute("href", "/p"));
    assert EffectiveBase(page, "https://cdn.example/") == "https://cdn.example/";
    assert "https://cdn.example/" + "/p" == "https://cdn.example//p";
  }
}
