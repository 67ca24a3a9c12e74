// Shared vocabulary: optional values, the error values of var.go, and the
// entities that several parts of the model pass around.
module Basics {
  datatype Option<+T> = None | Some(value: T)

  datatype Result<+T, +E> = Ok(value: T) | Err(error: E)

  // The sentinel errors of var.go that the modelled code returns.
  datatype Error =
    | ErrConnClose | ErrHijacked | ErrRwaControl | ErrLaunched
    | ErrReqUnavailable | ErrBodyNotAllowed | ErrDoned
    | ErrHostInvalid | ErrURIInvalid | ErrProtoInvalid | ErrMethodInvalid
    | ErrNonce | ErrEncode | ErrWrite | ErrContext

  datatype ConnState = StateNew | StateActive | StateIdle | StateHijacked | StateClosed

  // A bufio buffer; a writer is known by the size it was allocated with.
  datatype Buf = Reader(id: nat) | Writer(id: nat, size: nat)

  // Go strings hold bytes: characters below 256.
  predicate IsBytes(s: string) {
    forall i :: 0 <= i < |s| ==> s[i] as int < 256
  }

  // A JSON value, left opaque but for null.
  datatype Json = JsonNull | JsonValue(text: string)

  type Headers = map<string, string>

  // header.go:15-17: a missing key reads as the empty string.
  function HeaderGet(h: Headers, key: string): string {
    if key in h then h[key] else ""
  }

  // strings.Index for one character; |s| stands for "not found".
  function IndexOf(s: string, c: char): (i: nat)
    ensures i <= |s|
    ensures i < |s| ==> s[i] == c
    ensures forall j :: 0 <= j < i ==> s[j] != c
  {
    if s == [] then 0 else if s[0] == c then 0 else 1 + IndexOf(s[1..], c)
  }

  lemma IndexOfFirst(a: string, c: char, b: string)
    requires c !in a
    ensures IndexOf(a + [c] + b, c) == |a|
  {
    var s := a + [c] + b;
    assert s[|a|] == c;
    assert forall j :: 0 <= j < |a| ==> s[j] == a[j];
  }
}
