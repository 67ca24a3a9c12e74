// responseWrite and the dataWriter it embeds (responseWrite.go, dataWriter.go): what a
// handler does to its response, the line generated for it, and the keep-alive decision
// seen from the header, from serve and from the client.
module Response {
  import opened Basics
  import opened Header
  import Tokens
  import Version

  datatype RequestInfo = RequestInfo(nonce: string, verb: string, major: int, minor: int, headers: Headers)

  // A line sent back: dataWriter.go:23-28 as encoded at 65.
  datatype Reply = Reply(nonce: string, status: int, headers: Headers, body: Json)

  // request.go:223-225, as hasToken's meaning.
  ghost predicate WantsClose(h: Headers) {
    Tokens.HasPiece(HeaderGet(h, "Connection"), "close")
  }

  // func.go:307-317
  predicate BodyAllowed(status: int) {
    !(100 <= status <= 199) && status != 204 && status != 304
  }

  // func.go:240-250
  predicate ShouldClose(major: int, minor: int, h: Headers) {
    major < 1 ||
    (var conv := HeaderGet(h, "Connection");
     if major == 1 && minor == 0 then conv == "close" || conv != "keep-alive" else conv == "close")
  }

  // ---- what a handler does ----

  datatype Action =
    | SetStatus(code: int)
    | SetHeader(key: string, value: string)
    | DelHeader(key: string)
    | SetBody(data: Json)
    | WriteRaw(size: nat)
    | Hijack(granted: bool)

  datatype Draft = Draft(
    hijacked: bool, wroteStatus: bool, status: int, headers: Headers, body: Json, isWrite: bool)

  const BLANK := Draft(false, false, 0, map[], JsonNull, false)

  function WithStatus(d: Draft): Draft {
    if d.wroteStatus then d else d.(wroteStatus := true, status := 200)
  }

  function Acted(d: Draft, a: Action): Draft {
    match a
    case SetStatus(code) => if d.hijacked then d else d.(wroteStatus := true, status := code)
    case SetHeader(k, v) => d.(headers := d.headers[k := v])
    case DelHeader(k) => d.(headers := d.headers - {k})
    case SetBody(b) =>
      if d.hijacked then d
      else if BodyAllowed(WithStatus(d).status) then WithStatus(d).(body := b) else WithStatus(d)
    case WriteRaw(n) => if d.hijacked || n == 0 then d else d.(isWrite := true)
    case Hijack(granted) => if granted then d.(hijacked := true) else d
  }

  function ActedAll(d: Draft, actions: seq<Action>): Draft
    decreases |actions|
  {
    if actions == [] then d else ActedAll(Acted(d, actions[0]), actions[1..])
  }

  // ---- the generated reply ----

  // dataWriter.go:30-40: the Connection value that goes out, if any.
  ghost function ConnectionValue(r: RequestInfo, d: Draft, keepAlives: bool): Option<string> {
    if !Version.AtLeast((r.major, r.minor), 1, 1) || WantsClose(r.headers) || !keepAlives then Some("close")
    else if "Connection" in d.headers then Some(d.headers["Connection"])
    else if r.verb == "HEAD" || BodyAllowed(d.status) then Some("keep-alive")
    else None
  }

  // The reply to r for the draft d: its own status or 200, its headers and body, the
  // Connection value decided above, and a Date unless the handler set one.
  ghost predicate IsReplyTo(p: Reply, r: RequestInfo, d: Draft, keepAlives: bool, date: string) {
    && p.nonce == r.nonce
    && p.status == (if d.wroteStatus then d.status else 200)
    && p.body == d.body
    && (var c := ConnectionValue(r, WithStatus(d), keepAlives);
        ("Connection" in p.headers <==> c.Some?) && (c.Some? ==> p.headers["Connection"] == c.value))
    && "Date" in p.headers && p.headers["Date"] == (if "Date" in d.headers then d.headers["Date"] else date)
    && (forall k :: k != "Connection" && k != "Date" ==>
          (k in p.headers <==> k in d.headers) && (k in p.headers ==> p.headers[k] == d.headers[k]))
  }

  class ResponseWrite {
    const req: RequestInfo
    var hijacked: bool
    var wroteStatus: bool
    var status: int
    const header: HeaderMap
    var closeAfterReply: bool
    var handlerDone: bool
    var isWrite: bool
    // dataWriter
    var body: Json
    var generated: bool
    var fulfil: bool

    ghost function Model(): Draft
      reads this, header
    {
      Draft(hijacked, wroteStatus, status, header.m, body, isWrite)
    }

    constructor (r: RequestInfo)
      ensures Model() == BLANK && req == r && fresh(header)
      ensures !handlerDone && !closeAfterReply && !generated && !fulfil
    {
      req := r;
      hijacked, wroteStatus, status, closeAfterReply := false, false, 0, false;
      handlerDone, isWrite, body, generated, fulfil := false, false, JsonNull, false, false;
      header := new HeaderMap(map[]);
    }

    // responseWrite.go:95-102
    method Status(code: int)
      modifies this`wroteStatus, this`status
      ensures Model() == Acted(old(Model()), SetStatus(code))
      ensures !hijacked ==> wroteStatus && status == code
    {
      if hijacked {
        return;
      }
      wroteStatus := true;
      status := code;
    }

    method Default200Status()
      requires !hijacked
      modifies this`wroteStatus, this`status
      ensures Model() == WithStatus(old(Model()))
    {
      if !wroteStatus {
        Status(200);
      }
    }

    // responseWrite.go:128-141
    method SetBody(data: Json) returns (err: Option<Error>)
      modifies this`wroteStatus, this`status, this`body
      ensures Model() == Acted(old(Model()), Action.SetBody(data))
      ensures err == if hijacked then Some(ErrHijacked)
                     else if !BodyAllowed(status) then Some(ErrBodyNotAllowed) else None
      ensures body == if err.None? then data else old(body)
      ensures !hijacked ==> wroteStatus && status == if old(wroteStatus) then old(status) else 200
    {
      if hijacked {
        return Some(ErrHijacked);
      }
      Default200Status();
      if !BodyAllowed(status) {
        return Some(ErrBodyNotAllowed);
      }
      body := data;
      err := None;
    }

    // responseWrite.go:72-86.  What the buffer makes of the bytes is `wrote`: all of them,
    // or fewer and an error.  The response counts as written in either case.
    method Write(size: nat, wrote: nat) returns (n: nat, err: Option<Error>)
      requires wrote <= size
      modifies this`isWrite
      ensures Model() == Acted(old(Model()), WriteRaw(size))
      ensures isWrite == (old(isWrite) || (!hijacked && size > 0))
      ensures hijacked ==> n == 0 && err == Some(ErrHijacked)
      ensures !hijacked ==> n == wrote && (err == None <==> wrote == size) && (err.Some? ==> err.value == ErrWrite)
    {
      if hijacked {
        return 0, Some(ErrHijacked);
      }
      if size == 0 {
        return 0, None;
      }
      isWrite := true;
      n, err := wrote, if wrote == size then None else Some(ErrWrite);
    }

    // responseWrite.go:166-172; `granted` is hijackLocked's answer.
    method Hijack(granted: bool) returns (err: bool)
      modifies this`hijacked
      ensures handlerDone ==> err && Model() == old(Model())
      ensures !handlerDone ==> (err <==> !granted) && Model() == Acted(old(Model()), Action.Hijack(granted))
      ensures hijacked == (old(hijacked) || (!handlerDone && granted))
    {
      if handlerDone {
        return true;
      }
      if granted {
        hijacked := true;
      }
      err := !granted;
    }

    // One of the things a handler may do before its response is done.
    method Perform(a: Action)
      requires !handlerDone
      modifies this`hijacked, this`wroteStatus, this`status, this`body, this`isWrite, header
      ensures Model() == Acted(old(Model()), a)
    {
      match a {
        case SetStatus(code) => Status(code);
        case SetHeader(k, v) => header.Set(k, v);
        case DelHeader(k) => header.Del(k);
        case SetBody(b) => var _ := SetBody(b);
        case WriteRaw(n) => var _, _ := Write(n, n);
        case Hijack(granted) => var _ := Hijack(granted);
      }
    }

    method RunHandler(actions: seq<Action>)
      requires !handlerDone
      modifies this`hijacked, this`wroteStatus, this`status, this`body, this`isWrite, header
      ensures Model() == ActedAll(old(Model()), actions)
    {
      var i := 0;
      while i < |actions|
        invariant 0 <= i <= |actions|
        invariant ActedAll(Model(), actions[i..]) == ActedAll(old(Model()), actions)
      {
        assert actions[i..][0] == actions[i] && actions[i..][1..] == actions[i + 1..];
        Perform(actions[i]);
        i := i + 1;
      }
    }

    // dataWriter.go:30-43
    method DecideConnection(keepAlives: bool)
      requires !hijacked && wroteStatus && IsBytes(HeaderGet(req.headers, "Connection"))
      modifies this`closeAfterReply, header
      ensures var c := ConnectionValue(req, old(Model()), keepAlives);
        header.m == if c.Some? then old(header.m)["Connection" := c.value] else old(header.m)
      ensures closeAfterReply <==> header.Get("Connection") != "keep-alive"
    {
      var wantsClose := Tokens.HasToken(HeaderGet(req.headers, "Connection"), "close");
      if !Version.AtLeast((req.major, req.minor), 1, 1) || wantsClose || !keepAlives {
        header.Set("Connection", "close");
      } else if keepAlives && (req.verb == "HEAD" || BodyAllowed(status)) {
        if "Connection" !in header.m {
          header.Set("Connection", "keep-alive");
        }
      }
      closeAfterReply := header.Get("Connection") != "keep-alive";
    }

    // dataWriter.go:16-48.  The header map is the handler's own.
    method GenerateResponse(keepAlives: bool, date: string)
      requires !hijacked && IsBytes(HeaderGet(req.headers, "Connection"))
      modifies this`wroteStatus, this`status, this`closeAfterReply, this`generated, header
      ensures generated
      ensures old(generated) ==> Model() == old(Model()) && closeAfterReply == old(closeAfterReply)
      ensures !old(generated) ==>
        && IsReplyTo(Reply(req.nonce, status, header.m, body), req, old(Model()), keepAlives, date)
        && (closeAfterReply <==> header.Get("Connection") != "keep-alive")
    {
      if generated {
        return;
      }
      Default200Status();
      generated := true;
      DecideConnection(keepAlives);
      if "Date" !in header.m {
        header.Set("Date", date);
      }
    }

    // After this Hijack refuses: a raw function cannot hijack, whatever writer it kept.
    // responseWrite.go:154-160 with dataWriter.go:57-71; encodeOk and writeOk say how
    // json.Marshal and writeLineByte turn out.
    method Done(keepAlives: bool, date: string, encodeOk: bool, writeOk: bool)
      returns (err: Option<Error>, sent: Option<Reply>)
      requires !hijacked && (generated ==> fulfil) && IsBytes(HeaderGet(req.headers, "Connection"))
      modifies this, header
      ensures handlerDone && hijacked == old(hijacked) && (generated ==> fulfil)
      ensures fulfil == (old(fulfil) || !isWrite)
      ensures isWrite == old(isWrite)
      ensures (isWrite ==> err == None && sent == None && closeAfterReply == old(closeAfterReply))
      ensures !isWrite && old(fulfil) ==> err == Some(ErrDoned) && sent == None
      ensures !isWrite && !old(fulfil) ==>
        && fulfil && (err == None <==> encodeOk && writeOk) && (sent.Some? <==> encodeOk && writeOk)
        && (sent.Some? ==>
              && IsReplyTo(sent.value, req, old(Model()), keepAlives, date)
              && (closeAfterReply <==> HeaderGet(sent.value.headers, "Connection") != "keep-alive"))
    {
      sent := None;
      handlerDone := true;
      if isWrite {
        return None, None;
      }
      if fulfil {
        return Some(ErrDoned), None;
      }
      fulfil := true;
      GenerateResponse(keepAlives, date);
      if !encodeOk {
        return Some(ErrEncode), None;
      }
      if !writeOk {
        return Some(ErrWrite), None;
      }
      err, sent := None, Some(Reply(req.nonce, status, header.m, body));
    }
  }

  // Whatever becomes of the first, a second done sends no line, and says so unless the
  // handler had written its response raw.
  method DoneTwice(w: ResponseWrite, keepAlives: bool, date: string, encodeOk: bool, writeOk: bool)
    returns (err: Option<Error>, sent: Option<Reply>)
    requires !w.hijacked && !w.generated && IsBytes(HeaderGet(w.req.headers, "Connection"))
    modifies w, w.header
    ensures sent == None && err == if old(w.isWrite) then None else Some(ErrDoned)
  {
    var _, _ := w.Done(keepAlives, date, encodeOk, writeOk);
    err, sent := w.Done(keepAlives, date, true, true);
  }

  // ---- keep-alive: server, header and client agree ----

  // "keep-alive" goes out only for version 1.1 or later, without a close token in the
  // request, with keep-alives enabled.
  lemma KeepAliveOnlyWhenAllowed(p: Reply, r: RequestInfo, d: Draft, keepAlives: bool, date: string)
    requires IsReplyTo(p, r, d, keepAlives, date)
    ensures HeaderGet(p.headers, "Connection") == "keep-alive" ==>
      Version.AtLeast((r.major, r.minor), 1, 1) && !WantsClose(r.headers) && keepAlives
  {
  }

  // The client's Close (func.go:234) implies the server's closeAfterReply.  The converse
  // fails exactly when the server was willing to keep the connection, but the handler put
  // something other than "close" or "keep-alive" in Connection, or left it unset with a
  // status without body.  (When the loop stops, see ServeLoop.StopsUnseenIff.)
  lemma ClientAgreesIff(p: Reply, r: RequestInfo, d: Draft, keepAlives: bool, date: string)
    requires IsReplyTo(p, r, d, keepAlives, date)
    ensures var closesAfterReply := HeaderGet(p.headers, "Connection") != "keep-alive";
      var clientCloses := ShouldClose(1, 1, p.headers);
      && (clientCloses ==> closesAfterReply)
      && ((closesAfterReply && !clientCloses) <==>
            && Version.AtLeast((r.major, r.minor), 1, 1) && !WantsClose(r.headers) && keepAlives
            && (if "Connection" in d.headers
                then d.headers["Connection"] != "close" && d.headers["Connection"] != "keep-alive"
                else r.verb != "HEAD" && !BodyAllowed(if d.wroteStatus then d.status else 200)))
  {
  }
}
