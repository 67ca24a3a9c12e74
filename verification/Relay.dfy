// Reading a request and encoding it again to pass it on: readRequest (func.go:128-188),
// RequestConfig and GetBody (request.go:188-207, 297-346).  A message is the record its
// JSON holds; how a request URI parses is left to a function the lemmas quantify over.
module Relay {
  import opened Basics
  import opened Header
  import Response
  import Version
  import BasicAuth

  // The JSON object of a request; body is None when the key is absent.
  datatype Wire = Wire(
    nonce: string, proto: string, verb: string, path: string, host: string, home: string,
    headers: Headers, body: Option<Json>)

  datatype Url = Url(host: string, uri: string)

  // url.ParseRequestURI: it refuses the empty string.
  type UriParser = p: string -> Option<Url> | p("") == None witness _ => None

  // The buffered message of bodyr: absent (nil), with its body, or drained by a GetBody
  // that could not decode it.
  datatype Buffered = Gone | Full(body: Json) | Drained

  // bodyw is nil exactly when it is JsonNull.
  datatype ReqVal = ReqVal(
    nonce: string, host: string, verb: string, requestURI: string, url: Option<Url>,
    proto: string, major: int, minor: int, headers: Headers, close: bool,
    bodyw: Json, bodyr: Buffered)

  const METHODS: set<string> := {"GET", "POST", "HEAD", "PUT", "DELETE", "OPTIONS"}

  // httpguts.ValidHeaderFieldName: a token of section 3.2.6 of RFC 7230.
  predicate IsTokenChar(c: char) {
    || 'a' <= c <= 'z' || 'A' <= c <= 'Z' || '0' <= c <= '9'
    || c in {'!', '#', '$', '%', '&', '\'', '*', '+', '-', '.', '^', '_', '`', '|', '~'}
  }

  predicate ValidName(k: string) {
    k != "" && forall i :: 0 <= i < |k| ==> IsTokenChar(k[i])
  }

  // httpguts.ValidHeaderFieldValue: no control character but tab.
  predicate ValidValue(v: string) {
    forall i :: 0 <= i < |v| ==> v[i] == '\t' || (v[i] as int >= 32 && v[i] as int != 127)
  }

  predicate ValidHeaders(h: Headers) {
    forall k :: k in h ==> ValidName(k) && ValidValue(h[k])
  }

  // ---- what reading and encoding come to ----

  function BodyOf(w: Wire): Json {
    if w.body.Some? then w.body.value else JsonNull
  }

  function Accepted(parse: UriParser, w: Wire): bool {
    && w.nonce != "" && w.verb in METHODS
    && Version.ParseIOTVersion(w.proto).Some? && parse(w.path).Some? && ValidHeaders(w.headers)
  }

  function Read(parse: UriParser, w: Wire): (r: Option<ReqVal>)
    ensures r.Some? <==> Accepted(parse, w)
  {
    if !Accepted(parse, w) then None
    else
      var v := Version.ParseIOTVersion(w.proto).value;
      Some(ReqVal(
             w.nonce, if w.host == "" then w.home else w.host, w.verb, w.path, parse(w.path),
             w.proto, v.0, v.1, w.headers, Response.ShouldClose(v.0, v.1, w.headers),
             JsonNull, if w.verb == "POST" then Full(BodyOf(w)) else Gone))
  }

  // What of a message its request depends on.
  predicate SameRequest(w1: Wire, w2: Wire) {
    && w1.nonce == w2.nonce && w1.proto == w2.proto && w1.verb == w2.verb && w1.path == w2.path
    && w1.headers == w2.headers
    && (if w1.host == "" then w1.home else w1.host) == (if w2.host == "" then w2.home else w2.host)
    && (w1.verb == "POST" ==> BodyOf(w1) == BodyOf(w2))
  }

  // Reading forgets exactly this: where the host was written, and the body of anything but
  // a POST (an absent body and null being the same).
  lemma ReadForgetsOnly(parse: UriParser, w1: Wire, w2: Wire)
    requires Accepted(parse, w1) && Accepted(parse, w2)
    ensures Read(parse, w1) == Read(parse, w2) <==> SameRequest(w1, w2)
  {
  }

  function HostToSend(r: ReqVal): string {
    if r.host == "" && r.url.Some? then r.url.value.host else r.host
  }

  function PathToSend(r: ReqVal): string {
    if r.requestURI == "" && r.url.Some? then r.url.value.uri else r.requestURI
  }

  function ProtoToSend(r: ReqVal): string {
    if r.proto == "" then Version.VersionText(r.major, r.minor) else r.proto
  }

  // The body a GetBody would give: what was set, or what was read.
  function EffectiveBody(r: ReqVal): Json {
    if r.bodyw != JsonNull then r.bodyw
    else if r.bodyr.Full? then r.bodyr.body else JsonNull
  }

  function HeadersToSend(r: ReqVal): Headers {
    if r.close then r.headers["Connection" := "close"] else r.headers
  }

  function EncodeRefusal(r: ReqVal): Option<Error> {
    if HostToSend(r) == "" then Some(ErrHostInvalid)
    else if PathToSend(r) == "" then Some(ErrURIInvalid)
    else if r.proto == "" && !Version.AtLeast((r.major, r.minor), 1, 0) then Some(ErrProtoInvalid)
    else if r.verb == "" then Some(ErrMethodInvalid)
    else None
  }

  // The body is always written, null when there is none: the encoder is given a
  // pointer that is never nil.
  function Encode(r: ReqVal, nonce: string): Result<Wire, Error> {
    if EncodeRefusal(r).Some? then Err(EncodeRefusal(r).value)
    else Ok(Wire(nonce, ProtoToSend(r), r.verb, PathToSend(r), HostToSend(r), "", HeadersToSend(r),
                 Some(EffectiveBody(r))))
  }

  // ---- the objects ----

  class Request {
    var nonce: string
    var host: string
    var verb: string
    var requestURI: string
    var url: Option<Url>
    var proto: string
    var major: int
    var minor: int
    var header: HeaderMap
    var close: bool
    var bodyw: Json
    var bodyr: Buffered

    ghost function Model(): ReqVal
      reads this, header
    {
      ReqVal(nonce, host, verb, requestURI, url, proto, major, minor, header.m, close, bodyw, bodyr)
    }

    constructor (h: HeaderMap)
      ensures header == h && bodyw == JsonNull && bodyr == Gone
    {
      nonce, host, verb, requestURI, url, proto := "", "", "", "", None, "";
      major, minor, header, close, bodyw, bodyr := 0, 0, h, false, JsonNull, Gone;
    }

    // func.go:150-165
    method FillVersionAndBody(w: Wire, ma: int, mi: int, u: Option<Url>)
      modifies this`major, this`minor, this`url, this`bodyr
      ensures major == ma && minor == mi && url == u
      ensures bodyr == if w.verb == "POST" then Full(BodyOf(w)) else Gone
    {
      bodyr := Full(BodyOf(w));
      major, minor := ma, mi;
      url := u;
      if w.verb != "POST" {
        bodyr := Gone;
      }
    }

    // func.go:150-165, 176-185: the fields of a request just read.
    method Fill(w: Wire, ma: int, mi: int, u: Option<Url>)
      modifies this
      ensures header == old(header)
      ensures Model() == ReqVal(
        w.nonce, if w.host == "" then w.home else w.host, w.verb, w.path, u, w.proto, ma, mi, header.m,
        Response.ShouldClose(ma, mi, header.m), old(bodyw), if w.verb == "POST" then Full(BodyOf(w)) else Gone)
    {
      FillVersionAndBody(w, ma, mi, u);
      var h := w.host;
      if w.home != "" && h == "" {
        h := w.home;
      }
      nonce, verb, requestURI, proto, host := w.nonce, w.verb, w.path, w.proto, h;
      close := Response.ShouldClose(major, minor, header.m);
    }

    // request.go:188-207; `fits` says whether the destination takes the value.
    method GetBody(fits: bool) returns (err: bool, v: Json)
      modifies this`bodyr
      ensures err <==> !fits || (old(bodyw) == JsonNull && !old(bodyr).Full?)
      ensures !err ==> v == EffectiveBody(old(Model()))
      ensures bodyr == if old(bodyw) != JsonNull || !old(bodyr).Full? then old(bodyr)
                       else if fits then Gone else Drained
    {
      v := JsonNull;
      if bodyw != JsonNull {
        return !fits, bodyw;
      }
      if !bodyr.Full? {
        return true, JsonNull;
      }
      if !fits {
        bodyr := Drained;
        return true, JsonNull;
      }
      err, v := false, bodyr.body;
      bodyr := Gone;
    }

    method SetBody(v: Json)
      modifies this`bodyw
      ensures bodyw == v
    {
      bodyw := v;
    }

    method SetBasicAuth(username: string, password: string)
      requires IsBytes(username) && IsBytes(password)
      modifies header
      ensures header.m == BasicAuth.SetBasicAuth(old(header.m), username, password)
    {
      header.Set("Authorization", "Basic " + BasicAuth.BasicAuthText(username, password));
    }

    // request.go:298-325: where the request goes and under which version.
    method Target() returns (err: Option<Error>, h: string, path: string, p: string)
      ensures err == EncodeRefusal(Model())
      ensures h == if host != "" then host else if url.Some? then url.value.host else ""
      ensures path == if requestURI != "" then requestURI else if url.Some? then url.value.uri else ""
      ensures err == if h == "" then Some(ErrHostInvalid) else if path == "" then Some(ErrURIInvalid)
                     else if proto == "" && (major < 1 || (major == 1 && minor < 0)) then Some(ErrProtoInvalid)
                     else if verb == "" then Some(ErrMethodInvalid) else None
      ensures err.None? ==> p == if proto != "" then proto else Version.VersionText(major, minor)
      ensures err.None? ==> h == HostToSend(Model()) && path == PathToSend(Model()) && p == ProtoToSend(Model())
    {
      h, path, p := host, requestURI, proto;
      if url.Some? {
        if h == "" {
          h := url.value.host;
        }
        if path == "" {
          path := url.value.uri;
        }
      }
      if h == "" {
        return Some(ErrHostInvalid), h, path, p;
      }
      if path == "" {
        return Some(ErrURIInvalid), h, path, p;
      }
      if p == "" {
        if !Version.AtLeast((major, minor), 1, 0) {
          return Some(ErrProtoInvalid), h, path, p;
        }
        p := Version.VersionText(major, minor);
      }
      err := if verb == "" then Some(ErrMethodInvalid) else None;
    }

    // request.go:341-343: the body that was read becomes the one to write.
    method KeepBody()
      modifies this`bodyw, this`bodyr
      ensures bodyw == EffectiveBody(old(Model())) == EffectiveBody(Model())
    {
      if bodyw == JsonNull {
        var failed, v := GetBody(true);
        if !failed {
          bodyw := v;
        }
      }
    }

    // request.go:297-346
    method RequestConfig(newNonce: string) returns (err: Option<Error>, riot: RequestConfigObj?)
      modifies this`bodyw, this`bodyr
      ensures err == EncodeRefusal(old(Model()))
      ensures err.Some? ==> riot == null && Model() == old(Model())
      ensures err.None? ==>
        && riot != null && fresh(riot) && fresh(riot.header) && riot.bodyOf == this
        && Encode(old(Model()), newNonce) == Ok(riot.Encoded())
        && Encode(Model(), newNonce) == Encode(old(Model()), newNonce)
      ensures header == old(header) && header.m == old(header.m)
    {
      var h, path, p;
      err, h, path, p := Target();
      if err.Some? {
        return err, null;
      }
      var clone := header.Clone();
      if close {
        clone.Set("Connection", "close");
      }
      KeepBody();
      riot := new RequestConfigObj(newNonce, p, verb, path, h, clone, this);
    }
  }

  // The encoded form shares the request's body variable (request.go:344).
  class RequestConfigObj {
    const nonce: string
    const proto: string
    const verb: string
    const path: string
    const host: string
    const header: HeaderMap
    const bodyOf: Request

    constructor (n: string, p: string, v: string, u: string, h: string, hm: HeaderMap, r: Request)
      ensures nonce == n && proto == p && verb == v && path == u && host == h && header == hm && bodyOf == r
    {
      nonce, proto, verb, path, host, header, bodyOf := n, p, v, u, h, hm, r;
    }

    // request.go:55-61
    function Encoded(): Wire
      reads header, bodyOf
    {
      Wire(nonce, proto, verb, path, host, "", header.m, Some(bodyOf.bodyw))
    }
  }

  method CheckHeaders(h: HeaderMap) returns (ok: bool)
    ensures ok <==> ValidHeaders(h.m)
  {
    var todo := h.m.Keys;
    while todo != {}
      invariant todo <= h.m.Keys
      invariant forall k :: k in h.m && k !in todo ==> ValidName(k) && ValidValue(h.m[k])
      decreases |todo|
    {
      var k :| k in todo;
      if !ValidName(k) || !ValidValue(h.m[k]) {
        return false;
      }
      todo := todo - {k};
    }
    return true;
  }

  // func.go:146-168: the tests of a message and what they parse.
  method CheckMessage(parse: UriParser, w: Wire, header: HeaderMap) returns (ok: bool, v: (int, int), url: Option<Url>)
    requires header.m == w.headers
    ensures ok <==> Accepted(parse, w)
    ensures ok ==> Version.ParseIOTVersion(w.proto) == Some(v) && url == parse(w.path)
  {
    ok, v, url := false, (0, 0), None;
    if w.nonce == "" || w.verb !in METHODS {
      return;
    }
    var version := Version.ParseIOTVersion(w.proto);
    if version.None? {
      return;
    }
    v := version.value;
    url := parse(w.path);
    if url.None? {
      return;
    }
    ok := CheckHeaders(header);
  }

  // func.go:128-188, filling the fields one by one.
  method ReadRequest(parse: UriParser, w: Wire) returns (req: Request?)
    ensures req == null <==> Read(parse, w).None?
    ensures req != null ==> fresh(req) && fresh(req.header) && Read(parse, w) == Some(req.Model())
  {
    var wireHeader := new HeaderMap(w.headers);
    var header := wireHeader.Clone();
    var ok, v, url := CheckMessage(parse, w, header);
    if !ok {
      return null;
    }
    req := new Request(header);
    req.Fill(w, v.0, v.1, url);
  }

  // ---- a relay reaches a fixed point ----

  lemma CloseStaysValid(h: Headers)
    requires ValidHeaders(h)
    ensures ValidHeaders(h["Connection" := "close"])
  {
    assert ValidName("Connection") && ValidValue("close");
  }

  // What comes over the wire after one relay.
  lemma EncodedIsAccepted(parse: UriParser, w: Wire, nonce: string)
    requires Accepted(parse, w) && nonce != ""
    ensures var r := Read(parse, w).value;
      && EncodeRefusal(r) == (if HostToSend(r) == "" then Some(ErrHostInvalid) else None)
      && (Encode(r, nonce).Ok? ==> Accepted(parse, Encode(r, nonce).value))
  {
    var r := Read(parse, w).value;
    if r.close { CloseStaysValid(r.headers); }
  }

  // Whether a request of this version and Connection value asks to close: any before 1.0,
  // a 1.0 unless it says "keep-alive", a later one only if it says "close".
  predicate AsksToClose(major: int, minor: int, connection: string) {
    if major < 1 then true
    else if major == 1 && minor == 0 then connection != "keep-alive"
    else connection == "close"
  }

  // What a message becomes when it is passed on, told by the message alone: its host or
  // home or else the URL's host, "close" put in Connection when it asks to close, and the
  // body of a POST or null.
  lemma RelayedMessage(parse: UriParser, w: Wire, nonce: string)
    requires Accepted(parse, w)
    ensures var host := if w.host != "" then w.host else if w.home != "" then w.home else parse(w.path).value.host;
      var v := Version.ParseIOTVersion(w.proto).value;
      Encode(Read(parse, w).value, nonce) ==
      if host == "" then Err(ErrHostInvalid)
      else Ok(Wire(nonce, w.proto, w.verb, w.path, host, "",
                   if AsksToClose(v.0, v.1, HeaderGet(w.headers, "Connection")) then w.headers["Connection" := "close"]
                   else w.headers,
                   Some(if w.verb == "POST" && w.body.Some? then w.body.value else JsonNull)))
  {
    assert w.path != "";
    ShortProtoIsRefused();
  }

  lemma ShortProtoIsRefused()
    ensures Version.ParseIOTVersion("").None?
  {
  }

  // A plain message is accepted with six methods, and under the token characters and
  // printable values of section 3.2 of RFC 7230.
  lemma PlainMessageAccepted(parse: UriParser, w: Wire)
    requires w.nonce != "" && w.proto == "IOT/1.1" && parse(w.path).Some? && w.headers == map[]
    ensures Accepted(parse, w) <==> w.verb in {"GET", "POST", "HEAD", "PUT", "DELETE", "OPTIONS"}
  {
  }

  lemma TokenChars(c: char)
    ensures IsTokenChar(c) <==>
      && 33 <= c as int <= 126
      && c !in {'"', '(', ')', ',', '/', ':', ';', '<', '=', '>', '?', '@', '[', '\\', ']', '{', '}'}
  {
  }

  // No line break and no other control character but tab gets into a header value.
  lemma AcceptedHeadersAreOneLine(parse: UriParser, w: Wire, k: string)
    requires Accepted(parse, w) && k in w.headers
    ensures k != "" && forall i :: 0 <= i < |k| ==> 33 <= k[i] as int <= 126 && k[i] != ':'
    ensures forall i :: 0 <= i < |w.headers[k]| ==>
      var n := w.headers[k][i] as int; n == 9 || (n >= 32 && n != 127)
  {
    forall i | 0 <= i < |k| ensures 33 <= k[i] as int <= 126 && k[i] != ':' {
      TokenChars(k[i]);
    }
  }

  // A request that was read encodes exactly when it has a host, and reading that again
  // keeps everything but what the encoding is meant to change.
  lemma RelayKeeps(parse: UriParser, w: Wire, nonce: string)
    requires Accepted(parse, w) && nonce != ""
    ensures var r := Read(parse, w).value;
      && (Encode(r, nonce).Ok? <==> HostToSend(r) != "")
      && (Encode(r, nonce).Ok? ==>
            Read(parse, Encode(r, nonce).value) == Some(r.(
              nonce := nonce, host := HostToSend(r),
              headers := if r.close then r.headers["Connection" := "close"] else r.headers)))
  {
    EncodedIsAccepted(parse, w, nonce);
  }

  // A second relay changes nothing more.
  lemma RelayFixedPoint(parse: UriParser, w: Wire, n1: string, n2: string)
    requires Accepted(parse, w) && n1 != "" && Encode(Read(parse, w).value, n1).Ok?
    ensures var w1 := Encode(Read(parse, w).value, n1).value;
      && Accepted(parse, w1)
      && Encode(Read(parse, w1).value, n2) == Ok(w1.(nonce := n2))
  {
    RelayKeeps(parse, w, n1);
    var r := Read(parse, w).value;
    assert HeadersToSend(r.(headers := HeadersToSend(r))) == HeadersToSend(r);
  }

  // With an empty Proto the version is printed; it comes back the same exactly when it
  // is at least 1.0 and within the parser's bounds.
  lemma PrintedVersionSurvives(parse: UriParser, r: ReqVal, nonce: string)
    requires r.proto == "" && nonce != "" && r.verb in METHODS && ValidHeaders(r.headers)
    requires HostToSend(r) != "" && PathToSend(r) != "" && parse(PathToSend(r)).Some?
    ensures (&& Encode(r, nonce).Ok?
             && Read(parse, Encode(r, nonce).value).Some?
             && Read(parse, Encode(r, nonce).value).value.major == r.major
             && Read(parse, Encode(r, nonce).value).value.minor == r.minor)
       <==> (1 <= r.major <= 1000000 && 0 <= r.minor <= 1000000)
  {
    Version.VersionRoundTrip(r.major, r.minor);
    if r.close { CloseStaysValid(r.headers); }
  }
}
