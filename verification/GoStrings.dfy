/** The parts of Go's `strings` package that the modelled code calls.
    Letter case is that of ASCII: every other character is its own lower case. */
module GoStrings {

  datatype Option<+T> = None | Some(value: T)

  /** unicode.IsSpace */
  predicate IsSpace(c: char) {
    var n := c as int;
    || 0x09 <= n <= 0x0d || n == 0x20 || n == 0x85 || n == 0xa0 || n == 0x1680
    || 0x2000 <= n <= 0x200a || n == 0x2028 || n == 0x2029 || n == 0x202f || n == 0x205f || n == 0x3000
  }

  /** Blanks, tabs and line ends are white space; no visible ASCII character is. */
  lemma SpacesAscii(c: char)
    requires c as int < 0x80
    ensures IsSpace(c) <==> c == ' ' || c == '\t' || c == '\n' || c == '\r' || c as int == 0x0b || c as int == 0x0c
  {}

  function Lower(c: char): char {
    if 'A' <= c <= 'Z' then c - 'A' + 'a' else c
  }

  function ToLower(s: string): (r: string)
    ensures |r| == |s|
    ensures forall i :: 0 <= i < |s| ==> r[i] == Lower(s[i])
  {
    seq(|s|, i requires 0 <= i < |s| => Lower(s[i]))
  }

  function Upper(c: char): char {
    if 'a' <= c <= 'z' then c - 'a' + 'A' else c
  }

  function ToUpper(s: string): (r: string)
    ensures |r| == |s|
    ensures forall i :: 0 <= i < |s| ==> r[i] == Upper(s[i])
  {
    seq(|s|, i requires 0 <= i < |s| => Upper(s[i]))
  }

  predicate EqualFold(a: string, b: string) {
    ToLower(a) == ToLower(b)
  }

  predicate HasPrefix(s: string, p: string) {
    p <= s
  }

  function TrimPrefix(s: string, p: string): string {
    if p <= s then s[|p|..] else s
  }

  predicate HasSuffix(s: string, p: string) {
    |p| <= |s| && s[|s| - |p|..] == p
  }

  predicate Contains(s: string, sub: string) {
    exists i :: 0 <= i <= |s| && sub <= s[i..]
  }

  /** Containing is being cut into three. */
  lemma ContainsExactly(s: string, sub: string)
    ensures Contains(s, sub) <==> exists a, b :: s == a + sub + b
  {
    if i :| 0 <= i <= |s| && sub <= s[i..] {
      assert s == s[..i] + sub + s[i..][|sub|..];
    }
    if a, b :| s == a + sub + b {
      assert s[|a|..] == sub + b;
    }
  }

  function TrimLeft(s: string, cut: char -> bool): string {
    if s != "" && cut(s[0]) then TrimLeft(s[1..], cut) else s
  }

  function TrimRight(s: string, cut: char -> bool): string {
    if s != "" && cut(s[|s| - 1]) then TrimRight(s[..|s| - 1], cut) else s
  }

  function Trim(s: string, cut: char -> bool): string {
    TrimRight(TrimLeft(s, cut), cut)
  }

  function TrimSpace(s: string): string {
    Trim(s, IsSpace)
  }

  predicate IsBlank(s: string) {
    TrimSpace(s) == ""
  }

  /** No character at either end would be cut. */
  predicate Trimmed(s: string, cut: char -> bool) {
    s != "" ==> !cut(s[0]) && !cut(s[|s| - 1])
  }

  lemma {:induction false} TrimLeftDrop(s: string, cut: char -> bool) returns (k: nat)
    ensures k <= |s| && TrimLeft(s, cut) == s[k..]
    ensures forall i :: 0 <= i < k ==> cut(s[i])
    ensures k < |s| ==> !cut(s[k])
  {
    if s != "" && cut(s[0]) {
      var j := TrimLeftDrop(s[1..], cut);
      k := j + 1;
      assert s[1..][j..] == s[k..];
    } else {
      k := 0;
    }
  }

  lemma {:induction false} TrimRightKeep(s: string, cut: char -> bool) returns (k: nat)
    ensures k <= |s| && TrimRight(s, cut) == s[..k]
    ensures forall i :: k <= i < |s| ==> cut(s[i])
    ensures 0 < k ==> !cut(s[k - 1])
  {
    if s != "" && cut(s[|s| - 1]) {
      k := TrimRightKeep(s[..|s| - 1], cut);
      assert s[..|s| - 1][..k] == s[..k];
    } else {
      k := |s|;
    }
  }

  /** Trim returns a trimmed slice of its argument, and only cut characters were dropped. */
  lemma TrimSlice(s: string, cut: char -> bool) returns (lo: nat, hi: nat)
    ensures lo <= hi <= |s| && Trim(s, cut) == s[lo..hi]
    ensures forall i :: 0 <= i < lo || hi <= i < |s| ==> cut(s[i])
    ensures lo < hi ==> !cut(s[lo]) && !cut(s[hi - 1])
  {
    lo := TrimLeftDrop(s, cut);
    var left := s[lo..];
    var k := TrimRightKeep(left, cut);
    hi := lo + k;
    assert left[..k] == s[lo..hi];
    assert forall i :: hi <= i < |s| ==> s[i] == left[i - lo];
    if k > 0 {
      assert left[k - 1] == s[hi - 1];
    }
  }

  lemma TrimTrimmed(s: string, cut: char -> bool)
    requires Trimmed(s, cut)
    ensures Trim(s, cut) == s
  {
    if s != "" {
      assert TrimLeft(s, cut) == s;
    }
  }

  lemma TrimIdempotent(s: string, cut: char -> bool)
    ensures Trim(Trim(s, cut), cut) == Trim(s, cut)
  {
    var lo, hi := TrimSlice(s, cut);
    assert Trimmed(s[lo..hi], cut);
    TrimTrimmed(Trim(s, cut), cut);
  }

  /** A cut set that does not tell the cases of a letter apart trims both spellings alike. */
  lemma {:induction false} TrimLowerCommute(s: string, cut: char -> bool)
    requires forall c :: cut(Lower(c)) == cut(c)
    ensures ToLower(Trim(s, cut)) == Trim(ToLower(s), cut)
  {
    TrimLeftLower(s, cut);
    TrimRightLower(TrimLeft(s, cut), cut);
  }

  lemma {:induction false} TrimLeftLower(s: string, cut: char -> bool)
    requires forall c :: cut(Lower(c)) == cut(c)
    ensures ToLower(TrimLeft(s, cut)) == TrimLeft(ToLower(s), cut)
  {
    if s != "" {
      assert cut(ToLower(s)[0]) == cut(s[0]);
      if cut(s[0]) {
        TrimLeftLower(s[1..], cut);
        assert ToLower(s[1..]) == ToLower(s)[1..];
      }
    }
  }

  lemma {:induction false} TrimRightLower(s: string, cut: char -> bool)
    requires forall c :: cut(Lower(c)) == cut(c)
    ensures ToLower(TrimRight(s, cut)) == TrimRight(ToLower(s), cut)
  {
    if s != "" {
      assert cut(ToLower(s)[|s| - 1]) == cut(s[|s| - 1]);
      if cut(s[|s| - 1]) {
        TrimRightLower(s[..|s| - 1], cut);
        assert ToLower(s[..|s| - 1]) == ToLower(s)[..|s| - 1];
      }
    }
  }

  /** The first position of `c`. */
  function Index(s: string, c: char): (k: nat)
    requires c in s
    ensures k < |s| && s[k] == c && c !in s[..k]
  {
    if s[0] == c then 0
    else
      assert c in s[1..];
      assert s[..1 + Index(s[1..], c)] == [s[0]] + s[1..][..Index(s[1..], c)];
      1 + Index(s[1..], c)
  }

  /** strings.Split with a one-character separator. */
  function Split(s: string, sep: char): (parts: seq<string>)
    ensures |parts| >= 1
    ensures forall p :: p in parts ==> sep !in p
    decreases |s|
  {
    if sep !in s then [s]
    else
      var k := Index(s, sep);
      [s[..k]] + Split(s[k + 1..], sep)
  }

  /** strings.Join with a one-character separator. */
  function Join(parts: seq<string>, sep: char): string {
    if |parts| == 0 then ""
    else if |parts| == 1 then parts[0]
    else parts[0] + [sep] + Join(parts[1..], sep)
  }

  lemma {:induction false} JoinSplit(s: string, sep: char)
    ensures Join(Split(s, sep), sep) == s
    decreases |s|
  {
    if sep in s {
      var k := Index(s, sep);
      JoinSplit(s[k + 1..], sep);
      JoinCons(s[..k], Split(s[k + 1..], sep), sep);
      assert s == s[..k] + [s[k]] + s[k + 1..];
    }
  }

  lemma JoinCons(head: string, rest: seq<string>, sep: char)
    requires |rest| >= 1
    ensures Join([head] + rest, sep) == head + [sep] + Join(rest, sep)
  {
    assert ([head] + rest)[1..] == rest;
  }

  lemma IndexConcat(head: string, sep: char, tail: string)
    requires sep !in head
    ensures sep in head + [sep] + tail
    ensures Index(head + [sep] + tail, sep) == |head|
  {
    var s := head + [sep] + tail;
    assert s[|head|] == sep;
    var k := Index(s, sep);
    assert forall i :: 0 <= i < |head| ==> s[i] == head[i];
    assert forall j :: |head| < j <= |s| ==> s[..j][|head|] == sep;
  }

  lemma {:induction false} SplitJoin(parts: seq<string>, sep: char)
    requires |parts| >= 1
    requires forall p :: p in parts ==> sep !in p
    ensures Split(Join(parts, sep), sep) == parts
  {
    if |parts| == 1 {
      assert parts == [parts[0]];
    } else {
      var head, tail := parts[0], Join(parts[1..], sep);
      SplitJoin(parts[1..], sep);
      SplitCons(head, sep, tail);
      assert parts == [head] + parts[1..];
    }
  }

  lemma SplitCons(head: string, sep: char, tail: string)
    requires sep !in head
    ensures Split(head + [sep] + tail, sep) == [head] + Split(tail, sep)
  {
    var s := head + [sep] + tail;
    IndexConcat(head, sep, tail);
    assert s[..|head|] == head && s[|head| + 1..] == tail;
  }

  /* ---- text joined with pipes ---- */

  lemma LowerPipe(s: string)
    ensures '|' in ToLower(s) <==> '|' in s
  {
    if '|' in s {
      var i :| 0 <= i < |s| && s[i] == '|';
      assert ToLower(s)[i] == '|';
    }
  }

  lemma LowerPiped(x: string, y: string)
    ensures ToLower(x + "|" + y) == ToLower(x) + "|" + ToLower(y)
  {}

  /** A pipe-free head is recovered from the text before the first pipe. */
  lemma HeadUnique(a: string, x: string, b: string, y: string)
    requires '|' !in a && '|' !in b && a + "|" + x == b + "|" + y
    ensures a == b && x == y
  {
    IndexConcat(a, '|', x);
    IndexConcat(b, '|', y);
    var s := a + "|" + x;
    assert a == s[..|a|] && b == s[..|b|] && x == s[|a| + 1..] && y == s[|b| + 1..];
  }

  /** What follows the last separator of a text is determined by it. */
  lemma TailUnique(sep: char, a: string, x: string, b: string, y: string)
    requires sep !in x && sep !in y && a + ([sep] + x) == b + ([sep] + y)
    ensures a == b && x == y
  {
    var s, t := a + ([sep] + x), b + ([sep] + y);
    assert s[|a|] == sep && t[|b|] == sep;
    assert forall k :: |a| < k < |s| ==> s[k] == x[k - |a| - 1];
    assert forall k :: |b| < k < |t| ==> t[k] == y[k - |b| - 1];
    assert |a| == |b|;
    assert a == s[..|a|] && b == t[..|b|] && x == s[|a| + 1..] && y == t[|b| + 1..];
  }

  /* ---- decimal numbers ---- */

  function Itoa(n: nat): (r: string)
    ensures |r| >= 1 && (|r| == 1 <==> n < 10)
    ensures forall i :: 0 <= i < |r| ==> '0' <= r[i] <= '9'
  {
    if n < 10 then ['0' + n as char] else Itoa(n / 10) + ['0' + (n % 10) as char]
  }

  lemma {:induction false} ItoaInjective(m: nat, n: nat)
    requires Itoa(m) == Itoa(n)
    ensures m == n
  {
    if m >= 10 && n >= 10 {
      var a, b := Itoa(m), Itoa(n);
      assert a[..|a| - 1] == Itoa(m / 10) && b[..|b| - 1] == Itoa(n / 10);
      ItoaInjective(m / 10, n / 10);
      assert a[|a| - 1] == b[|b| - 1];
    } else {
      assert Itoa(m)[0] == Itoa(n)[0];
    }
  }

  /** strconv.Itoa */
  function Decimal(n: int): string {
    if n < 0 then "-" + Itoa(-n) else Itoa(n)
  }
}
