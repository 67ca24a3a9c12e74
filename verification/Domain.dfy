// derogatoryDomain of func.go:429-449: the host itself, then its labels replaced by
// "*" one after the other from the left, until one candidate is accepted.
module Domain {
  import opened Basics

  // strings.Split(s, ".") and strings.Join(labels, ".").
  function Split(s: string): (labels: seq<string>)
    ensures labels != []
  {
    if s == "" then [""]
    else
      var rest := Split(s[1..]);
      if s[0] == '.' then [""] + rest else [[s[0]] + rest[0]] + rest[1..]
  }

  function Join(labels: seq<string>): string {
    if labels == [] then ""
    else if |labels| == 1 then labels[0]
    else labels[0] + "." + Join(labels[1..])
  }

  function HostPart(host: string): string {
    host[..IndexOf(host, ':')]
  }

  // The port with its colon, or nothing.
  function PortPart(host: string): string {
    host[IndexOf(host, ':')..]
  }

  // labels with the first k replaced.
  function Starred(labels: seq<string>, k: nat): (r: seq<string>)
    requires k <= |labels|
    ensures |r| == |labels| && forall i :: 0 <= i < |r| ==> r[i] == (if i < k then "*" else labels[i])
  {
    seq(|labels|, i requires 0 <= i < |labels| => if i < k then "*" else labels[i])
  }

  // What the k-th call passes; call 0 passes the host.
  function Candidate(host: string, k: nat): string
    requires k <= |Split(HostPart(host))|
  {
    if k == 0 then host else Join(Starred(Split(HostPart(host)), k)) + PortPart(host)
  }

  lemma StarOneMore(labels: seq<string>, k: nat)
    requires k < |labels|
    ensures Starred(labels, k)[k := "*"] == Starred(labels, k + 1)
  {
  }

  // The calls made are the candidates in order.
  ghost predicate InOrder(host: string, calls: seq<string>) {
    |calls| <= |Split(HostPart(host))| + 1 && forall j :: 0 <= j < |calls| ==> calls[j] == Candidate(host, j)
  }

  lemma OneMoreCall(host: string, calls: seq<string>, c: string)
    requires InOrder(host, calls) && |calls| <= |Split(HostPart(host))| && c == Candidate(host, |calls|)
    ensures InOrder(host, calls + [c])
  {
  }

  // What the calls made so far promise: f may answer differently from call to call,
  // f(j, c) being its answer to call j.
  ghost predicate Tried(host: string, f: (nat, string) -> bool, calls: seq<string>) {
    && calls != [] && InOrder(host, calls)
    && (forall j :: 0 <= j < |calls| - 1 ==> !f(j, calls[j]))
    && (f(|calls| - 1, calls[|calls| - 1]) || |calls| == |Split(HostPart(host))| + 1)
  }

  // The loop over labels, which overwrites them in place.
  method TryWildcards(host: string, labels: array<string>, port: string, f: (nat, string) -> bool)
    returns (calls: seq<string>)
    requires labels[..] == Split(HostPart(host)) && port == PortPart(host) && !f(0, host)
    modifies labels
    ensures Tried(host, f, calls)
  {
    ghost var split := labels[..];
    calls := [host];
    var i := 0;
    while i < labels.Length
      invariant 0 <= i <= labels.Length == |split| && |calls| == i + 1
      invariant labels[..] == Starred(split, i)
      invariant InOrder(host, calls)
      invariant forall j :: 0 <= j < |calls| ==> !f(j, calls[j])
    {
      ghost var before := labels[..];
      labels[i] := "*";
      assert labels[..] == before[i := "*"];
      StarOneMore(split, i);
      var candidate := Join(labels[..]) + port;
      OneMoreCall(host, calls, candidate);
      calls := calls + [candidate];
      if f(i + 1, candidate) {
        return;
      }
      i := i + 1;
    }
  }

  method DerogatoryDomain(host: string, f: (nat, string) -> bool) returns (calls: seq<string>)
    ensures Tried(host, f, calls)
  {
    if f(0, host) {
      return [host];
    }
    var pos := IndexOf(host, ':');
    var port, name := "", host;
    if pos < |host| {
      port := host[pos..];
      name := host[..pos];
    }
    assert name == HostPart(host) && port == PortPart(host) by { assert host[..|host|] == host; }
    var split := Split(name);
    var labels := new string[|split|](i requires 0 <= i < |split| => split[i]);
    assert labels[..] == split;
    calls := TryWildcards(host, labels, port, f);
  }

  // ---- split and join undo each other ----

  lemma {:induction false} JoinOfSplit(s: string)
    ensures Join(Split(s)) == s
  {
    if s != "" {
      JoinOfSplit(s[1..]);
      var rest := Split(s[1..]);
      if s[0] == '.' {
        assert Split(s)[1..] == rest;
        assert s == "." + s[1..];
      } else {
        assert Split(s)[1..] == rest[1..];
        assert s == [s[0]] + s[1..];
      }
    }
  }

  // No label holds a '.', nor any other character the text does not hold.
  lemma {:induction false} SplitLabels(s: string, d: char)
    requires d == '.' || d !in s
    ensures forall i :: 0 <= i < |Split(s)| ==> d !in Split(s)[i]
  {
    if s != "" {
      SplitLabels(s[1..], d);
    }
  }

  lemma {:induction false} SplitFirst(a: string, s: string)
    requires '.' !in a
    ensures Split(a + "." + s) == [a] + Split(s)
    ensures Split(a) == [a]
  {
    if a == "" {
      assert a + "." + s == "." + s;
      assert ("." + s)[1..] == s;
    } else {
      SplitFirst(a[1..], s);
      assert (a + "." + s)[1..] == a[1..] + "." + s;
      assert a == [a[0]] + a[1..];
    }
  }

  lemma {:induction false} SplitOfJoin(labels: seq<string>)
    requires labels != [] && forall i :: 0 <= i < |labels| ==> '.' !in labels[i]
    ensures Split(Join(labels)) == labels
  {
    if |labels| == 1 {
      SplitFirst(labels[0], "");
    } else {
      SplitOfJoin(labels[1..]);
      SplitFirst(labels[0], Join(labels[1..]));
    }
  }

  lemma {:induction false} JoinHasNoColon(labels: seq<string>)
    requires forall i :: 0 <= i < |labels| ==> ':' !in labels[i]
    ensures ':' !in Join(labels)
  {
    if |labels| > 1 { JoinHasNoColon(labels[1..]); }
  }

  lemma HostAndPort(name: string, port: string)
    requires ':' !in name && (port == "" || port[0] == ':')
    ensures HostPart(name + port) == name && PortPart(name + port) == port
  {
    if port == "" {
      assert name + port == name;
      assert IndexOf(name, ':') == |name|;
    } else {
      IndexOfFirst(name, ':', port[1..]);
      assert name + port == name + [':'] + port[1..];
    }
  }

  // A pattern fits a host when the ports agree, the labels are equally many, and each
  // is "*" or the host's own.
  ghost predicate Fits(pattern: string, host: string) {
    var p, h := Split(HostPart(pattern)), Split(HostPart(host));
    PortPart(pattern) == PortPart(host) && |p| == |h| && forall i :: 0 <= i < |p| ==> p[i] == "*" || p[i] == h[i]
  }

  // Every candidate fits the host; its labels are the host's with the first k starred.
  lemma CandidateFits(host: string, k: nat)
    requires k <= |Split(HostPart(host))|
    ensures Fits(Candidate(host, k), host)
    ensures Split(HostPart(Candidate(host, k))) == Starred(Split(HostPart(host)), k)
  {
    var labels := Split(HostPart(host));
    var stars := Starred(labels, k);
    if k == 0 {
      assert stars == labels;
    } else {
      SplitLabels(HostPart(host), '.');
      SplitLabels(HostPart(host), ':');
      SplitOfJoin(stars);
      JoinHasNoColon(stars);
      HostAndPort(Join(stars), PortPart(host));
    }
  }
}
