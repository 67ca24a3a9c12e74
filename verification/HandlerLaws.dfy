// What goes out and whether the loop goes on, told by what handlers do: reference
// definitions that read a handler's actions from the last one back, and the theorems
// that the response and the loop agree with them.
module HandlerLaws {
  import opened Basics
  import opened Response
  import opened ServeLoop
  import Tokens

  // ---- a handler's actions, read from the end ----

  predicate Hijacks(actions: seq<Action>) {
    exists i :: 0 <= i < |actions| && actions[i] == Hijack(true)
  }

  predicate WritesRaw(actions: seq<Action>) {
    exists i :: 0 <= i < |actions| && actions[i].WriteRaw? && actions[i].size > 0
  }

  // The code of the last Status call.
  function LastStatus(actions: seq<Action>): Option<int> {
    if actions == [] then None
    else
      var a := actions[|actions| - 1];
      if a.SetStatus? then Some(a.code) else LastStatus(actions[..|actions| - 1])
  }

  function StatusInForce(actions: seq<Action>): int {
    if LastStatus(actions).Some? then LastStatus(actions).value else 200
  }

  // 1xx, 204 and 304 go without a body.
  predicate Bodiless(status: int) {
    status / 100 == 1 || status in {204, 304}
  }

  // The data of the last SetBody at whose moment the status allowed a body.
  function LastBody(actions: seq<Action>): Json {
    if actions == [] then JsonNull
    else
      var before, a := actions[..|actions| - 1], actions[|actions| - 1];
      if a.SetBody? && !Bodiless(StatusInForce(before)) then a.data else LastBody(before)
  }

  // What the last SetHeader or DelHeader of k left.
  function LastHeader(actions: seq<Action>, k: string): Option<string> {
    if actions == [] then None
    else
      var a := actions[|actions| - 1];
      if a.SetHeader? && a.key == k then Some(a.value)
      else if a.DelHeader? && a.key == k then None
      else LastHeader(actions[..|actions| - 1], k)
  }

  // ---- the draft agrees ----

  lemma {:induction false} ActedSnoc(d: Draft, actions: seq<Action>, a: Action)
    ensures ActedAll(d, actions + [a]) == Acted(ActedAll(d, actions), a)
    decreases |actions|
  {
    if actions == [] {
      assert actions + [a] == [a] && [a][1..] == [];
    } else {
      ActedSnoc(Acted(d, actions[0]), actions[1..], a);
      assert (actions + [a])[1..] == actions[1..] + [a];
    }
  }

  ghost predicate Agrees(d: Draft, actions: seq<Action>) {
    && !d.hijacked && (d.isWrite <==> WritesRaw(actions))
    && (LastStatus(actions).Some? ==> d.wroteStatus)
    && (if d.wroteStatus then d.status else 200) == StatusInForce(actions)
    && d.body == LastBody(actions)
    && (forall k :: HeaderAgrees(d.headers, actions, k))
  }

  ghost predicate HeaderAgrees(h: Headers, actions: seq<Action>, k: string) {
    (k in h <==> LastHeader(actions, k).Some?) && (k in h ==> Some(h[k]) == LastHeader(actions, k))
  }

  lemma OneMoreAgrees(d: Draft, before: seq<Action>, a: Action)
    requires Agrees(d, before) && a != Hijack(true)
    ensures Agrees(Acted(d, a), before + [a])
  {
    var actions := before + [a];
    assert actions[..|actions| - 1] == before;
    assert WritesRaw(actions) <==> WritesRaw(before) || (a.WriteRaw? && a.size > 0) by {
      if a.WriteRaw? && a.size > 0 { assert actions[|before|] == a; }
      if WritesRaw(before) {
        var i :| 0 <= i < |before| && before[i].WriteRaw? && before[i].size > 0;
        assert actions[i] == before[i];
      }
    }
    forall k ensures HeaderAgrees(Acted(d, a).headers, actions, k) {
      assert HeaderAgrees(d.headers, before, k);
    }
  }

  lemma {:induction false} DraftAgrees(actions: seq<Action>)
    requires !Hijacks(actions)
    ensures Agrees(ActedAll(BLANK, actions), actions)
    decreases |actions|
  {
    if actions != [] {
      var before, a := actions[..|actions| - 1], actions[|actions| - 1];
      assert actions == before + [a];
      assert forall i :: 0 <= i < |before| ==> before[i] == actions[i];
      DraftAgrees(before);
      ActedSnoc(BLANK, before, a);
      OneMoreAgrees(ActedAll(BLANK, before), before, a);
    }
  }

  lemma {:induction false} HijackedIff(actions: seq<Action>)
    ensures ActedAll(BLANK, actions).hijacked <==> Hijacks(actions)
    decreases |actions|
  {
    if actions != [] {
      var before, a := actions[..|actions| - 1], actions[|actions| - 1];
      assert actions == before + [a];
      HijackedIff(before);
      ActedSnoc(BLANK, before, a);
      if Hijacks(before) {
        var i :| 0 <= i < |before| && before[i] == Hijack(true);
        assert actions[i] == Hijack(true);
      }
    }
  }

  // ---- the reply ----

  // 1.1 or later, keep-alives on, and no "close" among the tokens of the request's own
  // Connection.
  ghost predicate Willing(r: RequestInfo, keepAlives: bool) {
    && (r.major > 1 || (r.major == 1 && r.minor >= 1)) && keepAlives
    && !("Connection" in r.headers && Tokens.HasPiece(r.headers["Connection"], "close"))
  }

  // The Connection value of the reply, "" for none.
  ghost function ConnectionSent(r: RequestInfo, actions: seq<Action>, keepAlives: bool): string {
    if !Willing(r, keepAlives) then "close"
    else if LastHeader(actions, "Connection").Some? then LastHeader(actions, "Connection").value
    else if r.verb == "HEAD" || !Bodiless(StatusInForce(actions)) then "keep-alive"
    else ""
  }

  // What a handler that does not hijack sends, by its actions alone.
  lemma ReplyByActions(p: Reply, r: RequestInfo, actions: seq<Action>, keepAlives: bool, date: string)
    requires !Hijacks(actions) && IsReplyTo(p, r, ActedAll(BLANK, actions), keepAlives, date)
    ensures p.nonce == r.nonce && p.status == StatusInForce(actions) && p.body == LastBody(actions)
    ensures HeaderGet(p.headers, "Connection") == ConnectionSent(r, actions, keepAlives)
    ensures HeaderGet(p.headers, "Date") ==
      if LastHeader(actions, "Date").Some? then LastHeader(actions, "Date").value else date
    ensures forall k :: k != "Connection" && k != "Date" ==> HeaderAgrees(p.headers, actions, k)
  {
    DraftAgrees(actions);
    var d := ActedAll(BLANK, actions);
    assert HeaderAgrees(d.headers, actions, "Connection") && HeaderAgrees(d.headers, actions, "Date");
    forall k | k != "Connection" && k != "Date" ensures HeaderAgrees(p.headers, actions, k) {
      assert HeaderAgrees(d.headers, actions, k);
    }
  }

  // ---- when the loop goes on ----

  // A turn lets the loop go on when nothing in it is amiss: by its inputs alone.
  ghost predicate GoesOn(t: Turn) {
    match t
    case Down => false
    case Raw(ok, idleOk) => ok && idleOk
    case ReadFails => false
    case Blank => true
    case Stray(accepted, idleOk) => accepted && idleOk
    case Malformed(_) => false
    case Request(x, idleOk) =>
      && !x.panics && !Hijacks(x.actions) && x.keepAlivesAfter && idleOk
      && (WritesRaw(x.actions)
          || (x.encodeOk && x.writeOk && ConnectionSent(x.req, x.actions, x.keepAlives) == "keep-alive"))
  }

  lemma RequestEndsIff(x: Exchange, idleOk: bool, ps: seq<Reply>)
    requires GeneratedBy(Request(x, idleOk), ps)
    ensures EndsLoop(Request(x, idleOk), ps) <==> !GoesOn(Request(x, idleOk))
  {
    HijackedIff(x.actions);
    if !Hijacks(x.actions) {
      DraftAgrees(x.actions);
      if Answered(x) { ReplyByActions(ps[0], x.req, x.actions, x.keepAlives, x.date); }
    }
  }

  lemma EndsLoopIff(t: Turn, ps: seq<Reply>)
    requires GeneratedBy(t, ps)
    ensures EndsLoop(t, ps) <==> !GoesOn(t)
  {
    if t.Request? { RequestEndsIff(t.x, t.idleOk, ps); }
  }

  // What a turn that lets the loop go on has sent: the request's own reply, unless the
  // handler wrote it raw; and nothing in the other turns.
  ghost predicate SentByActions(t: Turn, ps: seq<Reply>) {
    if t.Request? && !WritesRaw(t.x.actions) then
      |ps| == 1 && ps[0].nonce == t.x.req.nonce
      && ps[0].status == StatusInForce(t.x.actions) && ps[0].body == LastBody(t.x.actions)
    else ps == []
  }

  lemma GoingOnAnswers(t: Turn, ps: seq<Reply>)
    requires GeneratedBy(t, ps) && GoesOn(t)
    ensures SentByActions(t, ps)
  {
    if t.Request? {
      HijackedIff(t.x.actions);
      DraftAgrees(t.x.actions);
      if Answered(t.x) { ReplyByActions(ps[0], t.x.req, t.x.actions, t.x.keepAlives, t.x.date); }
    }
  }

  // The loop takes every turn up to and including the first in which something is amiss,
  // and no further; each request before that has been answered.
  lemma LoopTakesAllGoodTurns(inputs: seq<Input>, gen: seq<seq<Reply>>)
    requires Ran(inputs, gen)
    ensures forall i :: 0 <= i < |gen| - 1 ==> GoesOn(inputs[i].turn)
    ensures |gen| < |inputs| ==> |gen| > 0 && !GoesOn(inputs[|gen| - 1].turn)
    ensures (forall i :: 0 <= i < |inputs| ==> GoesOn(inputs[i].turn)) ==> |gen| == |inputs|
    ensures forall i :: 0 <= i < |gen| && GoesOn(inputs[i].turn) ==> SentByActions(inputs[i].turn, gen[i])
  {
    forall i | 0 <= i < |gen| - 1 ensures GoesOn(inputs[i].turn) {
      EndsLoopIff(inputs[i].turn, gen[i]);
    }
    if |gen| < |inputs| { EndsLoopIff(inputs[|gen| - 1].turn, gen[|gen| - 1]); }
    forall i | 0 <= i < |gen| && GoesOn(inputs[i].turn) ensures SentByActions(inputs[i].turn, gen[i]) {
      GoingOnAnswers(inputs[i].turn, gen[i]);
    }
  }

  // A malformed line is answered with a 400 under the nonce "-1", asking to close, which
  // the client sees, and it ends the loop.
  lemma MalformedIsRefused(inputs: seq<Input>, gen: seq<seq<Reply>>, i: nat)
    requires Ran(inputs, gen) && i < |gen| && inputs[i].turn.Malformed?
    ensures i == |gen| - 1 && |gen[i]| == 1
    ensures var p := gen[i][0];
      && p.nonce == "-1" && p.status == 400 && p.headers == map["Connection" := "close"]
      && p.body == JsonValue("Bad Request: " + inputs[i].turn.reason) && ShouldClose(1, 1, p.headers)
  {
    assert GeneratedBy(inputs[i].turn, gen[i]);
  }
}
