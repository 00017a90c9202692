/** net.SplitHostPort, net.JoinHostPort and url.URL.Hostname, and when two addresses name the same
    listener of this machine. */
module HostPort {
  import opened GoStrings

  datatype Addr = Addr(host: string, port: string)

  function LastIndex(s: string, c: char): (k: nat)
    requires c in s
    ensures k < |s| && s[k] == c && c !in s[k + 1..]
  {
    if s[|s| - 1] == c then |s| - 1
    else
      var front := s[..|s| - 1];
      assert s == front + [s[|s| - 1]];
      var k := LastIndex(front, c);
      assert s[k + 1..] == front[k + 1..] + [s[|s| - 1]];
      k
  }

  /** None is an error return. */
  function SplitHostPort(a: string): Option<Addr> {
    if ':' !in a then None
    else
      var i := LastIndex(a, ':');
      if a[0] == '[' then
        if ']' !in a then None
        else
          var end := Index(a, ']');
          if end + 1 != i || '[' in a[1..] || ']' in a[end + 1..] then None
          else Some(Addr(a[1..end], a[i + 1..]))
      else if ':' in a[..i] || '[' in a || ']' in a then None
      else Some(Addr(a[..i], a[i + 1..]))
  }

  function JoinHostPort(host: string, port: string): string {
    if ':' in host then "[" + host + "]:" + port else host + ":" + port
  }

  predicate NoBrackets(s: string) {
    '[' !in s && ']' !in s
  }

  lemma LastIndexConcat(head: string, c: char, tail: string)
    requires c !in tail
    ensures LastIndex(head + [c] + tail, c) == |head|
  {
    var s := head + [c] + tail;
    assert s[|head|] == c;
    assert s[|head| + 1..] == tail;
    var k := LastIndex(s, c);
    forall j | 0 <= j <= |head| ensures c in s[j..] {
      assert s[j..][|head| - j] == c;
    }
    assert forall j :: |head| < j < |s| ==> s[j] == tail[j - |head| - 1];
  }

  lemma SlicesKeep(a: string, i: nat, j: nat, c: char)
    requires i <= j <= |a| && c !in a
    ensures c !in a[i..j]
  {}

  lemma BareParts(a: string)
    requires SplitHostPort(a).Some? && a[0] != '['
    ensures var r := SplitHostPort(a).value; a == r.host + ":" + r.port && NoBrackets(r.host) && NoBrackets(r.port) && ':' !in r.port
  {
    var i := LastIndex(a, ':');
    SlicesKeep(a, 0, i, '[');
    SlicesKeep(a, 0, i, ']');
    SlicesKeep(a, i + 1, |a|, '[');
    SlicesKeep(a, i + 1, |a|, ']');
    assert a == a[..i] + [a[i]] + a[i + 1..];
  }

  lemma BracketedPieces(a: string, end: int, host: string, port: string)
    requires 0 < end && end + 1 < |a| && a[0] == '[' && a[end] == ']' && a[end + 1] == ':'
    requires '[' !in a[1..] && ']' !in a[..end] && ']' !in a[end + 1..]
    requires host == a[1..end] && port == a[end + 2..]
    ensures a == "[" + host + "]" + ":" + port && NoBrackets(host) && NoBrackets(port)
  {
    assert host == a[1..][..end - 1] && port == a[1..][end + 1..];
    SlicesKeep(a[1..], 0, end - 1, '[');
    SlicesKeep(a[1..], end + 1, |a| - 1, '[');
    assert host == a[..end][1..] && port == a[end + 1..][1..];
    SlicesKeep(a[..end], 1, end, ']');
    SlicesKeep(a[end + 1..], 1, |a| - end - 1, ']');
    assert a == [a[0]] + a[1..end] + [a[end]] + [a[end + 1]] + a[end + 2..];
  }

  lemma BracketedSplit(a: string)
    requires SplitHostPort(a).Some? && a[0] == '['
    ensures var r := SplitHostPort(a).value;
            a == "[" + r.host + "]" + ":" + r.port && NoBrackets(r.host) && NoBrackets(r.port) && ':' !in r.port
  {
    var end := Index(a, ']');
    BracketedPieces(a, end, a[1..end], a[end + 2..]);
  }

  /** What a successful split returns. */
  lemma SplitParts(a: string)
    requires SplitHostPort(a).Some?
    ensures var r := SplitHostPort(a).value; NoBrackets(r.host) && NoBrackets(r.port) && ':' !in r.port
    ensures a == (if a[0] == '[' then "[" + SplitHostPort(a).value.host + "]" else SplitHostPort(a).value.host) + ":" + SplitHostPort(a).value.port
  {
    if a[0] == '[' { BracketedSplit(a); } else { BareParts(a); }
  }

  /** Where the delimiters of a bracketed address are. */
  lemma BracketedShape(host: string, port: string)
    requires NoBrackets(host) && NoBrackets(port) && ':' !in port
    ensures var a := "[" + host + "]:" + port;
            && a[0] == '[' && ':' in a && LastIndex(a, ':') == |host| + 2 && ']' in a && Index(a, ']') == |host| + 1
  {
    var a := "[" + host + "]:" + port;
    assert a == ("[" + host + "]") + ":" + port;
    LastIndexConcat("[" + host + "]", ':', port);
    assert a == ("[" + host) + "]" + (":" + port);
    IndexConcat("[" + host, ']', ":" + port);
  }

  lemma BracketedParts(host: string, port: string)
    ensures var a := "[" + host + "]:" + port;
            && a[1..] == host + ("]:" + port) && a[|host| + 2..] == ":" + port
            && a[1..|host| + 1] == host && a[|host| + 3..] == port && a[..|host| + 2] == "[" + host + "]"
  {}

  lemma SplitBracketed(host: string, port: string)
    requires NoBrackets(host) && NoBrackets(port) && ':' !in port
    ensures SplitHostPort("[" + host + "]:" + port) == Some(Addr(host, port))
  {
    BracketedShape(host, port);
    BracketedParts(host, port);
    assert '[' !in host + ("]:" + port) && ']' !in ":" + port;
  }

  lemma SplitBare(host: string, port: string)
    requires NoBrackets(host) && ':' !in host && NoBrackets(port) && ':' !in port
    ensures SplitHostPort(host + ":" + port) == Some(Addr(host, port))
  {
    var a := host + ":" + port;
    LastIndexConcat(host, ':', port);
    assert a[..|host|] == host && a[|host| + 1..] == port;
    assert a[0] == if host == "" then ':' else host[0];
  }

  /** Splitting undoes joining. */
  lemma SplitUndoesJoin(host: string, port: string)
    requires NoBrackets(host) && NoBrackets(port) && ':' !in port
    ensures SplitHostPort(JoinHostPort(host, port)) == Some(Addr(host, port))
  {
    if ':' in host { SplitBracketed(host, port); } else { SplitBare(host, port); }
  }

  /** Exactly the texts that split, and into what. */
  lemma SplitExactly(a: string, r: Addr)
    ensures SplitHostPort(a) == Some(r) <==>
              && NoBrackets(r.host) && NoBrackets(r.port) && ':' !in r.port
              && (a == "[" + r.host + "]:" + r.port || (a == r.host + ":" + r.port && ':' !in r.host))
  {
    if SplitHostPort(a) == Some(r) {
      if a[0] == '[' {
        BracketedSplit(a);
        ColonAfterBracket(r.host, r.port);
      } else {
        BareParts(a);
        BareHostHasNoColon(a);
      }
    } else if NoBrackets(r.host) && NoBrackets(r.port) && ':' !in r.port {
      if a == "[" + r.host + "]:" + r.port { SplitBracketed(r.host, r.port); }
      if a == r.host + ":" + r.port && ':' !in r.host { SplitBare(r.host, r.port); }
    }
  }

  lemma BareHostHasNoColon(a: string)
    requires SplitHostPort(a).Some? && a[0] != '['
    ensures ':' !in SplitHostPort(a).value.host
  {}

  lemma ColonAfterBracket(host: string, port: string)
    ensures "[" + host + "]" + ":" + port == "[" + host + "]:" + port
  {}

  /* ---- which addresses are the same listener ---- */

  predicate IsBracket(c: char) {
    c == '[' || c == ']'
  }

  predicate IsLocalHost(host: string) {
    ToLower(Trim(TrimSpace(host), IsBracket)) in ["", "localhost", "127.0.0.1", "0.0.0.0", "::", "::1"]
  }

  predicate SameHost(a: string, b: string) {
    EqualFold(a, b) || (IsLocalHost(a) && IsLocalHost(b))
  }

  predicate SameListenerAddr(target: string, configured: string) {
    var t, c := SplitHostPort(target), SplitHostPort(configured);
    t.Some? && c.Some? && t.value.port == c.value.port && SameHost(t.value.host, c.value.host)
  }

  lemma LocalHostFolds(a: string, b: string)
    requires EqualFold(a, b)
    ensures IsLocalHost(a) == IsLocalHost(b)
  {
    TrimLowerCommute(a, IsSpace);
    TrimLowerCommute(b, IsSpace);
    TrimLowerCommute(TrimSpace(a), IsBracket);
    TrimLowerCommute(TrimSpace(b), IsBracket);
  }

  /** The names of this machine, however cased, padded or bracketed. */
  lemma LocalHostExactly(host: string)
    ensures var w := Trim(TrimSpace(host), IsBracket);
            IsLocalHost(host) <==>
              || w == "" || EqualFold(w, "localhost") || w == "127.0.0.1" || w == "0.0.0.0" || w == "::" || w == "::1"
  {
    LocalWords(Trim(TrimSpace(host), IsBracket));
  }

  lemma LocalWords(w: string)
    ensures ToLower(w) in ["", "localhost", "127.0.0.1", "0.0.0.0", "::", "::1"] <==>
              w == "" || EqualFold(w, "localhost") || w == "127.0.0.1" || w == "0.0.0.0" || w == "::" || w == "::1"
  {
    assert ToLower("localhost") == "localhost";
    NumericNames(w);
  }

  lemma NumericNames(w: string)
    ensures (ToLower(w) == "" <==> w == "") && (ToLower(w) == "127.0.0.1" <==> w == "127.0.0.1")
    ensures (ToLower(w) == "0.0.0.0" <==> w == "0.0.0.0") && (ToLower(w) == "::" <==> w == "::") && (ToLower(w) == "::1" <==> w == "::1")
  {
    NoLetters(w, ""); NoLetters(w, "127.0.0.1"); NoLetters(w, "0.0.0.0"); NoLetters(w, "::"); NoLetters(w, "::1");
  }

  /** A text without letters is its own only spelling. */
  lemma NoLetters(w: string, v: string)
    requires forall i :: 0 <= i < |v| ==> !('a' <= v[i] <= 'z')
    ensures ToLower(w) == v ==> w == v
    ensures (forall i :: 0 <= i < |v| ==> !('A' <= v[i] <= 'Z')) ==> ToLower(v) == v
  {
    if ToLower(w) == v {
      assert forall i :: 0 <= i < |w| ==> Lower(w[i]) == v[i];
    }
  }

  predicate LocalName(h: string) {
    h == "" || h == "localhost" || h == "127.0.0.1" || h == "0.0.0.0" || h == "::" || h == "::1"
  }

  lemma LocalNames(h: string)
    requires LocalName(h)
    ensures IsLocalHost(h) && NoBrackets(h)
  {
    LocalEnds(h);
    TrimTrimmed(h, IsSpace);
    TrimTrimmed(h, IsBracket);
    LocalWords(h);
  }

  lemma LocalEnds(h: string)
    requires LocalName(h)
    ensures Trimmed(h, IsSpace) && Trimmed(h, IsBracket) && NoBrackets(h)
  {}

  /** All names of this machine name the same listener on a port. */
  lemma LocalListenersSame(h: string, k: string, port: string)
    requires LocalName(h) && LocalName(k) && NoBrackets(port) && ':' !in port
    ensures SameListenerAddr(JoinHostPort(h, port), JoinHostPort(k, port))
  {
    LocalNames(h);
    LocalNames(k);
    SplitUndoesJoin(h, port);
    SplitUndoesJoin(k, port);
  }

  /** SameHost is an equivalence. */
  lemma SameHostEquivalence(a: string, b: string, c: string)
    ensures SameHost(a, a)
    ensures SameHost(a, b) ==> SameHost(b, a)
    ensures SameHost(a, b) && SameHost(b, c) ==> SameHost(a, c)
  {
    if EqualFold(a, b) { LocalHostFolds(a, b); }
    if EqualFold(b, c) { LocalHostFolds(b, c); }
  }

  /** SameListenerAddr is an equivalence on the addresses that split. */
  lemma SameListenerEquivalence(a: string, b: string, c: string)
    ensures SameListenerAddr(a, a) <==> SplitHostPort(a).Some?
    ensures SameListenerAddr(a, b) ==> SameListenerAddr(b, a)
    ensures SameListenerAddr(a, b) && SameListenerAddr(b, c) ==> SameListenerAddr(a, c)
  {
    if SplitHostPort(a).Some? && SplitHostPort(b).Some? && SplitHostPort(c).Some? {
      SameHostEquivalence(SplitHostPort(a).value.host, SplitHostPort(b).value.host, SplitHostPort(c).value.host);
    } else if SplitHostPort(a).Some? && SplitHostPort(b).Some? {
      SameHostEquivalence(SplitHostPort(a).value.host, SplitHostPort(b).value.host, "");
    } else if SplitHostPort(a).Some? {
      SameHostEquivalence(SplitHostPort(a).value.host, "", "");
    }
  }

  /* ---- the host part of a parsed URL ---- */

  predicate IsDigit(c: char) {
    '0' <= c <= '9'
  }

  predicate Digits(s: string) {
    forall i :: 0 <= i < |s| ==> IsDigit(s[i])
  }

  /** validOptionalPort of net/url: nothing, or a colon and digits. */
  predicate ValidOptionalPort(p: string) {
    p == "" || (p[0] == ':' && Digits(p[1..]))
  }

  /** The port check of url.Parse on the authority's host. */
  predicate ValidUrlHost(h: string) {
    if h != "" && h[0] == '[' then ']' in h && ValidOptionalPort(h[LastIndex(h, ']') + 1..])
    else ':' in h ==> ValidOptionalPort(h[LastIndex(h, ':')..])
  }

  function Hostname(h: string): string {
    var host := if ':' in h && ValidOptionalPort(h[LastIndex(h, ':')..]) then h[..LastIndex(h, ':')] else h;
    if |host| >= 2 && host[0] == '[' && host[|host| - 1] == ']' then host[1..|host| - 1] else host
  }

  lemma BracketedHostname(h: string, host: string, port: string)
    requires NoBrackets(host) && NoBrackets(port) && ':' !in port && h == "[" + host + "]:" + port && ValidUrlHost(h)
    ensures Hostname(h) == host && Digits(port)
  {
    BracketedPort(h, host, port);
    BracketedShape(host, port);
    BracketedParts(host, port);
    assert (":" + port)[1..] == port;
    assert ("[" + host + "]")[1..|host| + 1] == host;
  }

  lemma BracketedPort(h: string, host: string, port: string)
    requires NoBrackets(port) && h == "[" + host + "]:" + port && ValidUrlHost(h)
    ensures Digits(port)
  {
    assert h == ("[" + host) + "]" + (":" + port);
    LastIndexConcat("[" + host, ']', ":" + port);
    BracketedParts(host, port);
    assert (":" + port)[1..] == port;
  }

  lemma BareHostname(h: string, host: string, port: string)
    requires NoBrackets(host) && ':' !in port && h == host + ":" + port && ValidUrlHost(h)
    ensures Hostname(h) == host && Digits(port)
  {
    LastIndexConcat(host, ':', port);
    assert h[..|host|] == host && h[|host|..] == ":" + port;
    assert (":" + port)[1..] == port;
    assert h[0] == if host == "" then ':' else host[0];
  }

  /** For a host url.Parse accepts, Hostname and SplitHostPort agree. */
  lemma HostnameIsSplitHost(h: string)
    requires ValidUrlHost(h) && SplitHostPort(h).Some?
    ensures Hostname(h) == SplitHostPort(h).value.host && Digits(SplitHostPort(h).value.port)
  {
    var r := SplitHostPort(h).value;
    if h[0] == '[' {
      BracketedSplit(h);
      ColonAfterBracket(r.host, r.port);
      BracketedHostname(h, r.host, r.port);
    } else {
      BareParts(h);
      BareHostname(h, r.host, r.port);
    }
  }

  lemma JoinValidUrlHost(host: string, port: string)
    requires NoBrackets(host) && Digits(port)
    ensures ValidUrlHost(JoinHostPort(host, port))
  {
    var h := JoinHostPort(host, port);
    assert ':' !in port && ']' !in port;
    if ':' in host {
      assert h == ("[" + host) + "]" + (":" + port);
      LastIndexConcat("[" + host, ']', ":" + port);
      assert h[|host| + 2..] == ":" + port;
      assert (":" + port)[1..] == port;
    } else {
      LastIndexConcat(host, ':', port);
      assert h[|host|..] == ":" + port;
      assert (":" + port)[1..] == port;
      if host != "" { assert h[0] == host[0]; }
    }
  }
}
