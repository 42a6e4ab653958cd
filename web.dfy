/** The crawler's view of its foreign collaborators: the HTML tokenizer of
    golang.org/x/net/html, the URL parser of net/url and the HTTP client.
    None of their internals is modelled; parsing and fetching are plain
    function values that every lemma quantifies over. */
module Web {

  datatype Option<+T> = None | Some(value: T)

  /** strings.HasPrefix */
  predicate HasPrefix(s: string, prefix: string) {
    |prefix| <= |s| && s[..|prefix|] == prefix
  }

  /** A parsed *url.URL: the three fields the crawler reads and the string
      that its String method renders. */
  datatype Url = Url(scheme: string, host: string, path: string, text: string)

  /** One attribute of a start tag (html.Attribute: Key, Val). */
  datatype Attribute = Attribute(key: string, val: string)

  /** What the tokenizer's Next yields. ErrorToken is also how it signals
      the end of the input; every other token kind (text, end tags,
      comments, ...) is OtherToken, since the crawler ignores it. */
  datatype Token =
    | ErrorToken
    | StartTag(name: string, attrs: seq<Attribute>)
    | OtherToken

  /** The outcome of http.Get: an error, or a body read as tokens. An
      error comes with a response (withResponse) when the client gave up on
      a redirect chain and handed back the last response; a transport
      error, such as a host that does not resolve, comes with a nil one. */
  datatype Response = Failed(withResponse: bool) | Body(tokens: seq<Token>)

  /** url.Parse (None stands for a non-nil error) and http.Get. */
  datatype Net = Net(parse: string -> Option<Url>, get: string -> Response)
}
