/** The CORS middleware (the CORS protocol of section 3.2 of the WHATWG
    Fetch Standard): which origin a response allows, whether it allows
    credentials, and the headers it sets. */
module Cors {
  import opened Wrappers
  import opened Text

  const LOCAL_ORIGINS: seq<string> := ["http://localhost:3000", "http://localhost:3001"]
  const ALLOW_METHODS := "GET, POST, PUT, PATCH, DELETE, OPTIONS"
  const ALLOW_HEADERS := "Origin, Content-Type, Authorization, X-Requested-With, Accept"
  const MAX_AGE := "86400"
  const NO_CONTENT := 204

  /** The configured frontend url, and the FRONTEND_URL and FRONTEND_URLS
      environment values; an unset value is None. */
  datatype Settings = Settings(frontendUrl: Option<string>, envFrontendUrl: Option<string>, envFrontendUrls: Option<string>)

  /** The candidate values, in order: the three settings, then the two
      local development origins. */
  function Sources(s: Settings): (r: seq<Option<string>>)
    ensures |r| == 5 && r[0] == s.frontendUrl && r[1] == s.envFrontendUrl && r[2] == s.envFrontendUrls
    ensures r[3] == Some(LOCAL_ORIGINS[0]) && r[4] == Some(LOCAL_ORIGINS[1])
  {
    [s.frontendUrl, s.envFrontendUrl, s.envFrontendUrls, Some(LOCAL_ORIGINS[0]), Some(LOCAL_ORIGINS[1])]
  }

  /** The truthy values, each split on commas with every piece trimmed. */
  function Pieces(values: seq<Option<string>>): (r: seq<string>)
  {
    if values == [] then []
    else
      (if values[0].Some? && Truthy(values[0].value)
       then Trimmed(Split(values[0].value, ',')) else [])
      + Pieces(values[1..])
  }

  function Trimmed(parts: seq<string>): (r: seq<string>)
    ensures |r| == |parts| && forall k | 0 <= k < |r| :: r[k] == Trim(parts[k])
  {
    seq(|parts|, k requires 0 <= k < |parts| => Trim(parts[k]))
  }

  /** A piece comes from one of the truthy values. */
  predicate PieceOf(values: seq<Option<string>>, x: string)
  {
    exists i, j | 0 <= i < |values| && values[i].Some? && Truthy(values[i].value)
      && 0 <= j < |Split(values[i].value, ',')| :: x == Trim(Split(values[i].value, ',')[j])
  }

  lemma {:induction false} PiecesAreTrimmedParts(values: seq<Option<string>>, x: string)
    ensures x in Pieces(values) <==> PieceOf(values, x)
    decreases |values|
  {
    if values != [] {
      PiecesAreTrimmedParts(values[1..], x);
      var rest := values[1..];
      if PieceOf(rest, x) {
        var i, j :| 0 <= i < |rest| && rest[i].Some? && Truthy(rest[i].value)
          && 0 <= j < |Split(rest[i].value, ',')| && x == Trim(Split(rest[i].value, ',')[j]);
        assert values[i + 1] == rest[i];
      }
      if PieceOf(values, x) {
        var i, j :| 0 <= i < |values| && values[i].Some? && Truthy(values[i].value)
          && 0 <= j < |Split(values[i].value, ',')| && x == Trim(Split(values[i].value, ',')[j]);
        if i == 0 {
          assert Trimmed(Split(values[0].value, ','))[j] == x;
        } else {
          assert rest[i - 1] == values[i];
        }
      }
    }
  }

  /** No value occurs twice. */
  predicate Distinct(xs: seq<string>)
  {
    forall a, b | 0 <= a < b < |xs| :: xs[a] != xs[b]
  }

  /** Duplicates removed, each first occurrence kept in place. */
  function Unique(xs: seq<string>): (r: seq<string>)
    ensures Distinct(r)
    ensures forall x :: x in r <==> x in xs
    ensures xs != [] ==> r != [] && r[0] == xs[0]
  {
    if xs == [] then []
    else
      var front := Unique(xs[..|xs| - 1]);
      assert forall x | x in xs[..|xs| - 1] :: x in xs;
      assert forall x | x in xs :: x in xs[..|xs| - 1] || x == xs[|xs| - 1];
      if xs[|xs| - 1] in front then front else front + [xs[|xs| - 1]]
  }

  /** The allowed-origin list. */
  function Origins(s: Settings): (r: seq<string>)
    ensures Distinct(r)
  {
    Unique(Pieces(Sources(s)))
  }

  /** Every configured origin is a trimmed comma-separated piece of a
      truthy setting or a local origin, and every such piece is listed. */
  lemma OriginsArePieces(s: Settings, x: string)
    ensures x in Origins(s) <==> PieceOf(Sources(s), x)
  {
    PiecesAreTrimmedParts(Sources(s), x);
  }

  /** A truthy value without commas or surrounding blanks is a piece. */
  lemma PlainValueIsPiece(values: seq<Option<string>>, i: nat, x: string)
    requires i < |values| && values[i] == Some(x) && Truthy(x) && ',' !in x
    requires |x| > 0 && !IsTrimmable(x[0]) && !IsTrimmable(x[|x| - 1])
    ensures PieceOf(values, x)
  {
    SplitWithoutSeparator(x, ',');
    assert TrimStart(x) == x;
    assert x == Trim(Split(values[i].value, ',')[0]);
  }

  /** The local origins are always listed, so the list is never empty. */
  lemma LocalOriginsListed(s: Settings)
    ensures LOCAL_ORIGINS[0] in Origins(s) && LOCAL_ORIGINS[1] in Origins(s)
  {
    var src := Sources(s);
    var a := LOCAL_ORIGINS[0];
    var b := LOCAL_ORIGINS[1];
    assert ',' !in a && ',' !in b;
    assert a[0] == 'h' && a[|a| - 1] == '0' && b[0] == 'h' && b[|b| - 1] == '1';
    PlainValueIsPiece(src, 3, a);
    PlainValueIsPiece(src, 4, b);
    OriginsArePieces(s, a);
    OriginsArePieces(s, b);
  }

  /** The origin a response allows: the request's when it is truthy and
      the list is empty or holds it; otherwise the first listed origin;
      none when the list is empty. */
  function AllowedOrigin(origins: seq<string>, requestOrigin: Option<string>): (r: Option<string>)
    ensures (requestOrigin.Some? && Truthy(requestOrigin.value) && (origins == [] || requestOrigin.value in origins))
            <==> r == requestOrigin && r.Some? && Truthy(r.value)
    ensures r.None? <==> origins == [] && !(requestOrigin.Some? && Truthy(requestOrigin.value))
    ensures origins != [] && r.Some? ==> r.value in origins
    ensures r.Some? && r != requestOrigin ==> r == Some(origins[0])
  {
    if requestOrigin.Some? && Truthy(requestOrigin.value) && (origins == [] || requestOrigin.value in origins) then
      requestOrigin
    else if origins != [] then Some(origins[0])
    else None
  }

  /** With the local origins always listed, an unlisted origin is never
      echoed: the first listed origin is sent instead. */
  lemma UnlistedOriginNotEchoed(s: Settings, requestOrigin: string)
    requires requestOrigin !in Origins(s)
    ensures Origins(s) != [] && AllowedOrigin(Origins(s), Some(requestOrigin)) == Some(Origins(s)[0])
  {
    LocalOriginsListed(s);
  }

  /** Whether the middleware sets the Allow-Origin header: the chosen
      origin must be truthy. */
  predicate Grants(allowed: Option<string>)
  {
    allowed.Some? && Truthy(allowed.value)
  }

  /** The header bag after the middleware's writes, in order. */
  function WithCorsHeaders(headers: map<string, string>, allowed: Option<string>): (h: map<string, string>)
    ensures h.Keys == headers.Keys + (if Grants(allowed) then {"Access-Control-Allow-Origin"} else {})
                      + {"Access-Control-Allow-Methods", "Access-Control-Allow-Headers", "Access-Control-Allow-Credentials",
                         "Vary", "Access-Control-Max-Age"}
    ensures "Access-Control-Allow-Origin" in h <==> Grants(allowed) || "Access-Control-Allow-Origin" in headers
    ensures Grants(allowed) ==> h["Access-Control-Allow-Origin"] == allowed.value
    ensures h["Access-Control-Allow-Credentials"] == (if Grants(allowed) then "true" else "false")
    ensures h["Access-Control-Allow-Methods"] == ALLOW_METHODS && h["Access-Control-Allow-Headers"] == ALLOW_HEADERS
    ensures h["Vary"] == "Origin" && h["Access-Control-Max-Age"] == MAX_AGE
  {
    var granted := if Grants(allowed) then headers["Access-Control-Allow-Origin" := allowed.value] else headers;
    granted["Access-Control-Allow-Methods" := ALLOW_METHODS]
           ["Access-Control-Allow-Headers" := ALLOW_HEADERS]
           ["Access-Control-Allow-Credentials" := if Grants(allowed) then "true" else "false"]
           ["Vary" := "Origin"]
           ["Access-Control-Max-Age" := MAX_AGE]
  }

  /** An HTTP response: its status and its header bag. */
  class Response {
    var status: nat
    var headers: map<string, string>

    constructor (status: nat, headers: map<string, string>)
      ensures this.status == status && this.headers == headers
    {
      this.status := status;
      this.headers := headers;
    }

    method SetHeader(name: string, value: string)
      modifies this
      ensures headers == old(headers)[name := value] && status == old(status)
    {
      headers := headers[name := value];
    }
  }

  /** A preflight request is answered with an empty 204 here; any other
      request gets the next handler's response. Either way the CORS
      headers are then written onto it. */
  method Handle(s: Settings, httpMethod: string, requestOrigin: Option<string>, next: Response) returns (response: Response)
    modifies next
    ensures httpMethod == "OPTIONS" ==> && fresh(response) && response.status == NO_CONTENT
                                        && response.headers == WithCorsHeaders(map[], AllowedOrigin(Origins(s), requestOrigin))
                                        && unchanged(next)
    ensures httpMethod != "OPTIONS" ==> && response == next && response.status == old(next.status)
                                        && response.headers == WithCorsHeaders(old(next.headers), AllowedOrigin(Origins(s), requestOrigin))
  {
    var allowed := AllowedOrigin(Origins(s), requestOrigin);
    if httpMethod == "OPTIONS" {
      response := new Response(NO_CONTENT, map[]);
    } else {
      response := next;
    }
    if Grants(allowed) {
      response.SetHeader("Access-Control-Allow-Origin", allowed.value);
    }
    response.SetHeader("Access-Control-Allow-Methods", ALLOW_METHODS);
    response.SetHeader("Access-Control-Allow-Headers", ALLOW_HEADERS);
    response.SetHeader("Access-Control-Allow-Credentials", if Grants(allowed) then "true" else "false");
    response.SetHeader("Vary", "Origin");
    response.SetHeader("Access-Control-Max-Age", MAX_AGE);
  }
}
