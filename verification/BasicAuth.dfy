// Basic credentials, func.go:358-379 and request.go:259-271: "user:password" in the
// base64 of section 4 of RFC 4648, as section 2 of RFC 7617 puts it in a header.
module BasicAuth {
  import opened Basics

  // ---- base64 ----

  function Symbol(n: int): (c: char)
    requires 0 <= n < 64
  {
    if n < 26 then (n + 'A' as int) as char
    else if n < 52 then (n - 26 + 'a' as int) as char
    else if n < 62 then (n - 52 + '0' as int) as char
    else if n == 62 then '+' else '/'
  }

  function SymbolValue(c: char): (r: Option<int>)
    ensures r.Some? ==> 0 <= r.value < 64
  {
    if 'A' <= c <= 'Z' then Some(c as int - 'A' as int)
    else if 'a' <= c <= 'z' then Some(c as int - 'a' as int + 26)
    else if '0' <= c <= '9' then Some(c as int - '0' as int + 52)
    else if c == '+' then Some(62) else if c == '/' then Some(63) else None
  }

  function Encode3(a: int, b: int, c: int): string
    requires 0 <= a < 256 && 0 <= b < 256 && 0 <= c < 256
  {
    [Symbol(a / 4), Symbol(a % 4 * 16 + b / 16), Symbol(b % 16 * 4 + c / 64), Symbol(c % 64)]
  }

  function Encode2(a: int, b: int): string
    requires 0 <= a < 256 && 0 <= b < 256
  {
    [Symbol(a / 4), Symbol(a % 4 * 16 + b / 16), Symbol(b % 16 * 4), '=']
  }

  function Encode1(a: int): string
    requires 0 <= a < 256
  {
    [Symbol(a / 4), Symbol(a % 4 * 16), '=', '=']
  }

  function Encode(s: string): string
    requires IsBytes(s)
  {
    if s == "" then ""
    else if |s| == 1 then Encode1(s[0] as int)
    else if |s| == 2 then Encode2(s[0] as int, s[1] as int)
    else Encode3(s[0] as int, s[1] as int, s[2] as int) + Encode(s[3..])
  }

  // The decoder skips CR and LF wherever they stand.
  function WithoutNewlines(s: string): string {
    if s == "" then ""
    else if s[0] == '\r' || s[0] == '\n' then WithoutNewlines(s[1..])
    else [s[0]] + WithoutNewlines(s[1..])
  }

  function Byte(n: int): char
    requires 0 <= n < 256
  {
    n as char
  }

  // Four symbols at a time; padding only in the last group, its spare bits ignored.
  function DecodeGroups(s: string): Option<string> {
    if s == "" then Some("")
    else if |s| < 4 then None
    else
      var v0, v1, v2, v3 := SymbolValue(s[0]), SymbolValue(s[1]), SymbolValue(s[2]), SymbolValue(s[3]);
      if v0.None? || v1.None? then None
      else
        var first := Byte(v0.value * 4 + v1.value / 16);
        if s[2] == '=' then (if s[3] == '=' && |s| == 4 then Some([first]) else None)
        else if v2.None? then None
        else
          var second := Byte(v1.value % 16 * 16 + v2.value / 4);
          if s[3] == '=' then (if |s| == 4 then Some([first, second]) else None)
          else if v3.None? then None
          else
            var third := Byte(v2.value % 4 * 64 + v3.value);
            var rest := DecodeGroups(s[4..]);
            if rest.None? then None else Some([first, second, third] + rest.value)
  }

  function Decode(s: string): Option<string> {
    DecodeGroups(WithoutNewlines(s))
  }

  lemma SymbolRoundTrip(n: int)
    requires 0 <= n < 64
    ensures SymbolValue(Symbol(n)) == Some(n)
    ensures Symbol(n) != '=' && Symbol(n) != '\r' && Symbol(n) != '\n'
  {
  }

  // The alphabet of table 1 in section 4 of RFC 4648, a quarter at a time.
  lemma SymbolsFromTable(n: int)
    requires 0 <= n < 16
    ensures Symbol(n) == "ABCDEFGHIJKLMNOP"[n]
    ensures Symbol(16 + n) == "QRSTUVWXYZabcdef"[n]
    ensures Symbol(32 + n) == "ghijklmnopqrstuv"[n]
    ensures Symbol(48 + n) == "wxyz0123456789+/"[n]
  {
    SymbolQuarter1(n);
    SymbolQuarter2(n);
    SymbolQuarter3(n);
    SymbolQuarter4(n);
  }

  lemma SymbolQuarter1(n: int)
    requires 0 <= n < 16
    ensures Symbol(n) == "ABCDEFGHIJKLMNOP"[n]
  {
  }

  lemma SymbolQuarter2(n: int)
    requires 0 <= n < 16
    ensures Symbol(16 + n) == "QRSTUVWXYZabcdef"[n]
  {
  }

  lemma SymbolQuarter3(n: int)
    requires 0 <= n < 16
    ensures Symbol(32 + n) == "ghijklmnopqrstuv"[n]
  {
  }

  lemma SymbolQuarter4(n: int)
    requires 0 <= n < 16
    ensures Symbol(48 + n) == "wxyz0123456789+/"[n]
  {
  }

  // A symbol's value in base 64.
  function Value(c: char): int {
    if SymbolValue(c).Some? then SymbolValue(c).value else 0
  }

  // The four symbols of a group are its three bytes, read as one number of 24 bits; with
  // one or two bytes missing these count as zero.
  lemma GroupIsOneNumber(a: int, b: int, c: int)
    requires 0 <= a < 256 && 0 <= b < 256 && 0 <= c < 256
    ensures var g := Encode3(a, b, c);
      ((Value(g[0]) * 64 + Value(g[1])) * 64 + Value(g[2])) * 64 + Value(g[3]) == (a * 256 + b) * 256 + c
    ensures var g := Encode2(a, b);
      g[3] == '=' && ((Value(g[0]) * 64 + Value(g[1])) * 64 + Value(g[2])) * 64 == (a * 256 + b) * 256
    ensures var g := Encode1(a);
      g[2] == '=' && g[3] == '=' && ((Value(g[0]) * 64 + Value(g[1])) * 64) * 64 == (a * 256) * 256
  {
    SymbolRoundTrip(a / 4);
    SymbolRoundTrip(a % 4 * 16 + b / 16);
    SymbolRoundTrip(b % 16 * 4 + c / 64);
    SymbolRoundTrip(c % 64);
    SymbolRoundTrip(b % 16 * 4);
    SymbolRoundTrip(a % 4 * 16);
  }

  // The six-bit regrouping loses nothing.
  lemma SextetsRoundTrip(a: int, b: int, c: int)
    requires 0 <= a < 256 && 0 <= b < 256 && 0 <= c < 256
    ensures var x0, x1, x2, x3 := a / 4, a % 4 * 16 + b / 16, b % 16 * 4 + c / 64, c % 64;
      && 0 <= x0 < 64 && 0 <= x1 < 64 && 0 <= x2 < 64 && 0 <= x3 < 64
      && x0 * 4 + x1 / 16 == a && x1 % 16 * 16 + x2 / 4 == b && x2 % 4 * 64 + x3 == c
  {
  }

  predicate Plain(s: string) {
    forall i :: 0 <= i < |s| ==> s[i] != '\r' && s[i] != '\n'
  }

  lemma {:induction false} PlainIsKept(s: string)
    requires Plain(s)
    ensures WithoutNewlines(s) == s
  {
    if s != "" { PlainIsKept(s[1..]); }
  }

  lemma FullGroup(a: int, b: int, c: int, rest: string)
    requires 0 <= a < 256 && 0 <= b < 256 && 0 <= c < 256
    ensures Plain(Encode3(a, b, c))
    ensures DecodeGroups(Encode3(a, b, c) + rest) ==
      if DecodeGroups(rest).None? then None else Some([a as char, b as char, c as char] + DecodeGroups(rest).value)
  {
    var g := Encode3(a, b, c);
    SextetsRoundTrip(a, b, c);
    SymbolRoundTrip(a / 4);
    SymbolRoundTrip(a % 4 * 16 + b / 16);
    SymbolRoundTrip(b % 16 * 4 + c / 64);
    SymbolRoundTrip(c % 64);
    assert (g + rest)[4..] == rest;
  }

  lemma OneByteGroup(a: int)
    requires 0 <= a < 256
    ensures Plain(Encode1(a)) && DecodeGroups(Encode1(a)) == Some([a as char])
  {
    SymbolRoundTrip(a / 4);
    SymbolRoundTrip(a % 4 * 16);
  }

  lemma TwoByteGroup(a: int, b: int)
    requires 0 <= a < 256 && 0 <= b < 256
    ensures Plain(Encode2(a, b)) && DecodeGroups(Encode2(a, b)) == Some([a as char, b as char])
  {
    SextetsRoundTrip(a, b, 0);
    SymbolRoundTrip(a / 4);
    SymbolRoundTrip(a % 4 * 16 + b / 16);
    SymbolRoundTrip(b % 16 * 4);
  }

  lemma {:induction false} GroupsRoundTrip(s: string)
    requires IsBytes(s)
    ensures Plain(Encode(s)) && DecodeGroups(Encode(s)) == Some(s)
    decreases |s|
  {
    if |s| == 1 {
      OneByteGroup(s[0] as int);
      assert s == [s[0]];
    } else if |s| == 2 {
      TwoByteGroup(s[0] as int, s[1] as int);
      assert s == [s[0], s[1]];
    } else if |s| > 2 {
      var a, b, c := s[0] as int, s[1] as int, s[2] as int;
      GroupsRoundTrip(s[3..]);
      FullGroup(a, b, c, Encode(s[3..]));
      assert Encode(s) == Encode3(a, b, c) + Encode(s[3..]);
      assert [s[0], s[1], s[2]] + s[3..] == s;
    }
  }

  lemma Base64RoundTrip(s: string)
    requires IsBytes(s)
    ensures Decode(Encode(s)) == Some(s)
  {
    GroupsRoundTrip(s);
    PlainIsKept(Encode(s));
  }

  // Whole groups of symbols, of which the last may end in one or two '='.
  ghost predicate Padded(s: string, p: nat) {
    && |s| % 4 == 0 && p <= 2 && p <= |s|
    && (forall i :: 0 <= i < |s| - p ==> SymbolValue(s[i]).Some?)
    && (forall i :: |s| - p <= i < |s| ==> s[i] == '=')
  }

  predicate FourSymbols(s: string)
    requires |s| >= 4
  {
    SymbolValue(s[0]).Some? && SymbolValue(s[1]).Some? && SymbolValue(s[2]).Some? && SymbolValue(s[3]).Some?
  }

  lemma PaddedTail(s: string, p: nat)
    requires |s| >= 8
    ensures Padded(s, p) <==> FourSymbols(s) && Padded(s[4..], p)
  {
    assert forall i :: 4 <= i < |s| ==> s[i] == s[4..][i - 4];
    if FourSymbols(s) && Padded(s[4..], p) {
      forall i | 0 <= i < |s| - p ensures SymbolValue(s[i]).Some? {
        if i >= 4 { assert s[i] == s[4..][i - 4]; }
      }
    }
  }

  lemma OneGroupDecodes(s: string, p: nat)
    requires |s| == 4
    ensures DecodeGroups(s).Some? ==> 1 <= |DecodeGroups(s).value| <= 3
    ensures Padded(s, p) <==> DecodeGroups(s).Some? && |DecodeGroups(s).value| + p == 3
  {
    assert s[4..] == "" && DecodeGroups("") == Some("");
    if Padded(s, p) { assert p > 0 ==> s[3] == '='; }
  }

  lemma FirstGroupDecodes(s: string)
    requires |s| >= 8
    ensures DecodeGroups(s).Some? <==> FourSymbols(s) && DecodeGroups(s[4..]).Some?
    ensures DecodeGroups(s).Some? ==> |DecodeGroups(s).value| == 3 + |DecodeGroups(s[4..]).value|
  {
  }

  // A text decodes if and only if it is so, and the padding says how many bytes there are.
  lemma {:induction false} DecodesIffPadded(s: string, p: nat)
    ensures Padded(s, p) <==> DecodeGroups(s).Some? && 4 * (|DecodeGroups(s).value| + p) == 3 * |s|
    ensures DecodeGroups(s).Some? ==> 3 * |s| - 4 * |DecodeGroups(s).value| in {0, 4, 8}
    decreases |s|
  {
    if |s| == 4 {
      OneGroupDecodes(s, p);
    } else if |s| >= 8 {
      DecodesIffPadded(s[4..], p);
      FirstGroupDecodes(s);
      PaddedTail(s, p);
    }
  }

  // Line breaks do not count, wherever they stand.
  lemma BreaksDoNotCount(a: string, c: char, b: string)
    requires c in {'\r', '\n'}
    ensures Decode(a + [c] + b) == Decode(a + b)
  {
    BreakIsDropped(a, c, b);
  }

  lemma HeadKeptOrDropped(c: char, t: string)
    ensures WithoutNewlines([c] + t) == (if c in {'\r', '\n'} then "" else [c]) + WithoutNewlines(t)
  {
    assert ([c] + t)[1..] == t;
  }

  lemma {:induction false} BreakIsDropped(a: string, c: char, b: string)
    requires c in {'\r', '\n'}
    ensures WithoutNewlines(a + [c] + b) == WithoutNewlines(a + b)
    decreases |a|
  {
    if a == "" {
      assert a + [c] + b == [c] + b && a + b == b;
      HeadKeptOrDropped(c, b);
    } else {
      BreakIsDropped(a[1..], c, b);
      HeadKeptOrDropped(a[0], a[1..] + [c] + b);
      HeadKeptOrDropped(a[0], a[1..] + b);
      assert a + [c] + b == [a[0]] + (a[1..] + [c] + b);
      assert a + b == [a[0]] + (a[1..] + b);
    }
  }

  // ---- credentials ----

  const PREFIX: string := "Basic "

  function BasicAuthText(username: string, password: string): string
    requires IsBytes(username) && IsBytes(password)
  {
    Encode(username + ":" + password)
  }

  function ParseBasicAuth(auth: string): Option<(string, string)> {
    if !(PREFIX <= auth) then None
    else
      var c := Decode(auth[|PREFIX|..]);
      if c.None? then None
      else
        var s := IndexOf(c.value, ':');
        if s == |c.value| then None else Some((c.value[..s], c.value[s + 1..]))
  }

  function SetBasicAuth(h: Headers, username: string, password: string): Headers
    requires IsBytes(username) && IsBytes(password)
  {
    h["Authorization" := PREFIX + BasicAuthText(username, password)]
  }

  function GetBasicAuth(h: Headers): Option<(string, string)> {
    var auth := HeaderGet(h, "Authorization");
    if auth == "" then None else ParseBasicAuth(auth)
  }

  // Splitting "user:password" at its first colon.
  lemma FirstColonSplit(username: string, password: string)
    ensures var text := username + ":" + password;
      var s := IndexOf(text, ':');
      && s < |text|
      && text[..s] + ":" + text[s + 1..] == text
      && ':' !in text[..s]
      && ((text[..s], text[s + 1..]) == (username, password) <==> ':' !in username)
  {
    var text := username + ":" + password;
    assert text[|username|] == ':';
    if ':' !in username {
      IndexOfFirst(username, ':', password);
      assert text == username + [':'] + password;
      assert text[..|username|] == username && text[|username| + 1..] == password;
    }
  }

  lemma StoredTextParses(text: string)
    requires IsBytes(text)
    ensures ParseBasicAuth(PREFIX + Encode(text)) ==
      var s := IndexOf(text, ':'); if s == |text| then None else Some((text[..s], text[s + 1..]))
  {
    var auth := PREFIX + Encode(text);
    assert auth[|PREFIX|..] == Encode(text);
    Base64RoundTrip(text);
  }

  // Any other text is refused.
  lemma OnlyBasicParses(auth: string)
    ensures ParseBasicAuth(auth).Some? <==>
      exists t :: auth == "Basic " + t && Decode(t).Some? && ':' in Decode(t).value
  {
    if ParseBasicAuth(auth).Some? {
      assert auth == "Basic " + auth[6..];
    }
    if t :| auth == "Basic " + t && Decode(t).Some? && ':' in Decode(t).value {
      assert auth[6..] == t;
    }
  }

  // Reading back always succeeds and re-splits the stored text at its first colon, so
  // the pair comes back exactly when the user name holds no colon.  No other header
  // is touched.
  lemma CredentialsRoundTrip(h: Headers, username: string, password: string)
    requires IsBytes(username) && IsBytes(password)
    ensures var r := GetBasicAuth(SetBasicAuth(h, username, password));
      && r.Some?
      && r.value.0 + ":" + r.value.1 == username + ":" + password
      && ':' !in r.value.0
      && (r.value == (username, password) <==> ':' !in username)
    ensures forall k :: k != "Authorization" ==> HeaderGet(SetBasicAuth(h, username, password), k) == HeaderGet(h, k)
  {
    FirstColonSplit(username, password);
    StoredTextParses(username + ":" + password);
  }
}
