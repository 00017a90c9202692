/** url.Parse and URL.String for URLs that name a host.  Percent-escapes are ordinary characters
    here, and the user part is kept as written. */
module Url {
  import opened GoStrings
  import opened HostPort

  /** `rest` is everything from the path on. */
  datatype Url = Url(scheme: string, user: Option<string>, host: string, rest: string)

  predicate IsControl(c: char) {
    c as int < 0x20 || c as int == 0x7f
  }

  predicate Printable(s: string) {
    forall i :: 0 <= i < |s| ==> !IsControl(s[i])
  }

  predicate IsLetter(c: char) {
    'a' <= c <= 'z' || 'A' <= c <= 'Z'
  }

  predicate IsSchemeChar(c: char) {
    IsLetter(c) || IsDigit(c) || c == '+' || c == '-' || c == '.'
  }

  predicate IsScheme(s: string) {
    s != "" && IsLetter(s[0]) && forall i :: 0 <= i < |s| ==> IsSchemeChar(s[i])
  }

  /** The characters that end the authority. */
  predicate EndsAuthority(c: char) {
    c == '/' || c == '?' || c == '#'
  }

  /** The characters url.Parse lets a host contain. */
  predicate IsHostChar(c: char) {
    || '!' <= c <= '"' || c == '$' || '&' <= c <= '.' || IsDigit(c) || ':' <= c <= '>' || IsLetter(c)
    || c == '[' || c == ']' || c == '_' || c == '~' || c as int >= 0x80
  }

  /** Letters, digits and the marks RFC 3986 lists for hosts may occur; delimiters may not. */
  lemma HostCharsExactly(c: char)
    ensures IsLetter(c) || IsDigit(c) || c in "-._~!$&'()*+,;=:[]" ==> IsHostChar(c)
    ensures c in " /?#@%\\^`{|}" ==> !IsHostChar(c)
    ensures IsControl(c) ==> !IsHostChar(c)
  {}

  predicate HostChars(s: string) {
    forall i :: 0 <= i < |s| ==> IsHostChar(s[i])
  }

  /** The length of the authority at the front of `s`. */
  function AuthorityLen(s: string): (k: nat)
    ensures k <= |s|
    ensures forall i :: 0 <= i < k ==> !EndsAuthority(s[i])
    ensures k < |s| ==> EndsAuthority(s[k])
  {
    if s == "" || EndsAuthority(s[0]) then 0 else 1 + AuthorityLen(s[1..])
  }

  /** The user part, if any, and the host. */
  function SplitUser(authority: string): (Option<string>, string) {
    if '@' in authority
    then (Some(authority[..LastIndex(authority, '@')]), authority[LastIndex(authority, '@') + 1..])
    else (None, authority)
  }

  /** The part after "//": user, host and rest. */
  function ParseHierarchy(scheme: string, s: string): Option<Url> {
    var k := AuthorityLen(s);
    var (user, host) := SplitUser(s[..k]);
    if !WellFormedHost(host) then None else Some(Url(scheme, user, host, s[k..]))
  }

  /** None: url.Parse fails, or the URL has no host. */
  function Parse(s: string): Option<Url> {
    if !Printable(s) then None
    else if "//" <= s then ParseHierarchy("", s[2..])
    else if ':' !in s then None
    else
      var i := Index(s, ':');
      if IsScheme(s[..i]) && "//" <= s[i + 1..] then ParseHierarchy(ToLower(s[..i]), s[i + 3..]) else None
  }

  function Authority(u: Url): string {
    (if u.user.Some? then u.user.value + "@" else "") + u.host
  }

  function Print(u: Url): string {
    (if u.scheme == "" then "" else u.scheme + ":") + "//" + (Authority(u) + u.rest)
  }

  predicate NoEnds(s: string) {
    forall i :: 0 <= i < |s| ==> !EndsAuthority(s[i])
  }

  /** What parsing returns, and what printing keeps. */
  ghost predicate WellFormed(u: Url) {
    && (u.scheme == "" || (IsScheme(u.scheme) && ToLower(u.scheme) == u.scheme))
    && (u.user.Some? ==> NoEnds(u.user.value) && Printable(u.user.value))
    && WellFormedHost(u.host)
    && (u.rest != "" ==> EndsAuthority(u.rest[0])) && Printable(u.rest)
  }

  predicate WellFormedHost(h: string) {
    h != "" && ValidUrlHost(h) && HostChars(h)
  }

  lemma HostCharFacts(h: string)
    requires HostChars(h)
    ensures NoEnds(h) && '@' !in h && Printable(h)
  {}

  lemma SchemeFacts(s: string)
    requires IsScheme(s)
    ensures ':' !in s && Printable(s) && s[0] != '/' && IsScheme(ToLower(s)) && ToLower(ToLower(s)) == ToLower(s)
  {}

  lemma AuthorityLenConcat(a: string, rest: string)
    requires NoEnds(a) && (rest != "" ==> EndsAuthority(rest[0]))
    ensures AuthorityLen(a + rest) == |a|
  {
    var s := a + rest;
    var k := AuthorityLen(s);
    assert forall i :: 0 <= i < |a| ==> s[i] == a[i];
    assert rest != "" ==> s[|a|] == rest[0];
  }

  lemma SplitUserAuthority(user: Option<string>, host: string)
    requires '@' !in host
    ensures SplitUser((if user.Some? then user.value + "@" else "") + host) == (user, host)
  {
    if user.Some? {
      var a := user.value + "@" + host;
      LastIndexConcat(user.value, '@', host);
      assert a[..|user.value|] == user.value && a[|user.value| + 1..] == host;
    } else {
      assert "" + host == host;
    }
  }

  lemma HierarchyRoundTrip(u: Url)
    requires WellFormed(u)
    ensures ParseHierarchy(u.scheme, Authority(u) + u.rest) == Some(u)
  {
    var a := Authority(u);
    var s := a + u.rest;
    HostCharFacts(u.host);
    assert NoEnds(a);
    AuthorityLenConcat(a, u.rest);
    assert s[..|a|] == a && s[|a|..] == u.rest;
    SplitUserAuthority(u.user, u.host);
  }

  lemma PrintablePrint(u: Url)
    requires WellFormed(u)
    ensures Printable(Authority(u) + u.rest) && Printable(Print(u))
  {
    HostCharFacts(u.host);
    AuthorityPrintable(u);
    PrintableConcat(Authority(u), u.rest);
    PrintableConcat("//", Authority(u) + u.rest);
    if u.scheme != "" {
      SchemeFacts(u.scheme);
      PrintableConcat(u.scheme, ":");
      PrintableConcat(u.scheme + ":", "//" + (Authority(u) + u.rest));
      assert Print(u) == (u.scheme + ":") + ("//" + (Authority(u) + u.rest));
    } else {
      assert Print(u) == "//" + (Authority(u) + u.rest);
    }
  }

  lemma PrintableConcat(a: string, b: string)
    requires Printable(a) && Printable(b)
    ensures Printable(a + b)
  {}

  lemma AuthorityPrintable(u: Url)
    requires Printable(u.host) && (u.user.Some? ==> Printable(u.user.value))
    ensures Printable(Authority(u))
  {
    if u.user.Some? {
      PrintableConcat(u.user.value, "@");
      PrintableConcat(u.user.value + "@", u.host);
    } else {
      assert Authority(u) == u.host;
    }
  }

  lemma ParseScheme(scheme: string, body: string)
    requires IsScheme(scheme) && ToLower(scheme) == scheme && Printable(scheme + ":" + ("//" + body))
    ensures Parse(scheme + ":" + ("//" + body)) == ParseHierarchy(scheme, body)
  {
    SchemeFacts(scheme);
    SchemePieces(scheme, body);
  }

  lemma SchemePieces(scheme: string, body: string)
    requires scheme != "" && scheme[0] != '/' && ':' !in scheme
    ensures var s := scheme + ":" + ("//" + body);
            && ':' in s && Index(s, ':') == |scheme| && !("//" <= s)
            && s[..|scheme|] == scheme && s[|scheme| + 1..] == "//" + body && s[|scheme| + 3..] == body
  {
    var s := scheme + ":" + ("//" + body);
    IndexConcat(scheme, ':', "//" + body);
    assert s[0] == scheme[0];
  }

  lemma ParseNoScheme(body: string)
    requires Printable("//" + body)
    ensures Parse("//" + body) == ParseHierarchy("", body)
  {
    assert ("//" + body)[2..] == body;
  }

  lemma PrintShape(u: Url)
    ensures u.scheme == "" ==> Print(u) == "//" + (Authority(u) + u.rest)
    ensures u.scheme != "" ==> Print(u) == u.scheme + ":" + ("//" + (Authority(u) + u.rest))
  {}

  /** Parsing undoes printing. */
  lemma ParsePrint(u: Url)
    requires WellFormed(u)
    ensures Parse(Print(u)) == Some(u)
  {
    HierarchyRoundTrip(u);
    PrintablePrint(u);
    PrintShape(u);
    if u.scheme == "" {
      ParseNoScheme(Authority(u) + u.rest);
    } else {
      ParseScheme(u.scheme, Authority(u) + u.rest);
    }
  }

  lemma SliceKeeps(s: string, i: nat, j: nat)
    requires i <= j <= |s|
    ensures NoEnds(s) ==> NoEnds(s[i..j])
    ensures Printable(s) ==> Printable(s[i..j])
  {}

  lemma HierarchyWellFormed(scheme: string, s: string)
    requires Printable(s) && ParseHierarchy(scheme, s).Some?
    requires scheme == "" || (IsScheme(scheme) && ToLower(scheme) == scheme)
    ensures WellFormed(ParseHierarchy(scheme, s).value)
  {
    var k := AuthorityLen(s);
    SliceKeeps(s, 0, k);
    SliceKeeps(s, k, |s|);
    UserWellFormed(s[..k]);
  }

  lemma UserWellFormed(a: string)
    requires NoEnds(a) && Printable(a)
    ensures var (user, _) := SplitUser(a); user.Some? ==> NoEnds(user.value) && Printable(user.value)
  {
    if '@' in a { SliceKeeps(a, 0, LastIndex(a, '@')); }
  }

  lemma ParseWellFormed(s: string)
    requires Parse(s).Some?
    ensures WellFormed(Parse(s).value)
  {
    if "//" <= s {
      HierarchyWellFormed("", s[2..]);
    } else {
      var i := Index(s, ':');
      SchemeFacts(s[..i]);
      HierarchyWellFormed(ToLower(s[..i]), s[i + 3..]);
    }
  }

  lemma HierarchyKeepsEnd(scheme: string, s: string)
    requires ParseHierarchy(scheme, s).Some? && (s != "" ==> !IsSpace(s[|s| - 1]))
    ensures var rest := ParseHierarchy(scheme, s).value.rest; rest != "" ==> !IsSpace(rest[|rest| - 1])
  {
    var k := AuthorityLen(s);
    assert k < |s| ==> s[k..][|s| - k - 1] == s[|s| - 1];
  }

  lemma EndOfSlice(s: string, k: nat)
    requires k <= |s| && Trimmed(s, IsSpace)
    ensures s[k..] != "" ==> !IsSpace(s[k..][|s[k..]| - 1])
  {}

  /** The last character of the text is the last of `rest`, or of the host. */
  lemma ParseKeepsEnd(s: string)
    requires Parse(s).Some? && Trimmed(s, IsSpace)
    ensures Parse(s).value.rest != "" ==> !IsSpace(Parse(s).value.rest[|Parse(s).value.rest| - 1])
  {
    if "//" <= s {
      EndOfSlice(s, 2);
      HierarchyKeepsEnd("", s[2..]);
    } else {
      var i := Index(s, ':');
      EndOfSlice(s, i + 3);
      HierarchyKeepsEnd(ToLower(s[..i]), s[i + 3..]);
    }
  }

  lemma UserParts(a: string)
    ensures var (user, host) := SplitUser(a); a == (if user.Some? then user.value + "@" else "") + host
  {
    if '@' in a {
      var k := LastIndex(a, '@');
      assert a == a[..k] + [a[k]] + a[k + 1..];
    }
  }

  lemma HierarchyKeepsText(scheme: string, s: string)
    requires ParseHierarchy(scheme, s).Some?
    ensures var u := ParseHierarchy(scheme, s).value; u.scheme == scheme && Authority(u) + u.rest == s
  {
    var k := AuthorityLen(s);
    UserParts(s[..k]);
    assert s == s[..k] + s[k..];
  }

  lemma ParseWithScheme(s: string) returns (k: nat)
    requires Parse(s).Some? && !("//" <= s)
    ensures 0 < k < |s| && s[k] == ':' && ':' !in s[..k] && "//" <= s[k + 1..]
    ensures Parse(s) == ParseHierarchy(ToLower(s[..k]), s[k + 3..])
  {
    k := Index(s, ':');
  }

  /** Nothing is lost in parsing: the URL printed is the text parsed, the scheme in lower case. */
  lemma ParseKeepsText(s: string)
    requires Parse(s).Some?
    ensures "//" <= s ==> Print(Parse(s).value) == s
    ensures !("//" <= s) ==>
              exists k :: 0 < k < |s| && s[k] == ':' && ':' !in s[..k] && Print(Parse(s).value) == ToLower(s[..k]) + s[k..]
  {
    if "//" <= s {
      HierarchyKeepsText("", s[2..]);
      PrintShape(Parse(s).value);
      assert s == "//" + s[2..];
    } else {
      var k := ParseWithScheme(s);
      SchemeText(s, k, Parse(s).value);
    }
  }

  lemma SchemeText(s: string, k: nat, u: Url)
    requires 0 < k < |s| && s[k] == ':' && "//" <= s[k + 1..] && ParseHierarchy(ToLower(s[..k]), s[k + 3..]) == Some(u)
    ensures Print(u) == ToLower(s[..k]) + s[k..]
  {
    HierarchyKeepsText(ToLower(s[..k]), s[k + 3..]);
    TextPieces(s, k);
    PrintedText(u, s[k + 3..], s[k..]);
  }

  lemma PrintedText(u: Url, body: string, tail: string)
    requires u.scheme != "" && Authority(u) + u.rest == body && tail == ":" + ("//" + body)
    ensures Print(u) == u.scheme + tail
  {
    PrintShape(u);
    assert u.scheme + ":" + ("//" + body) == u.scheme + (":" + ("//" + body));
  }

  lemma TextPieces(s: string, k: nat)
    requires k < |s| && s[k] == ':' && "//" <= s[k + 1..]
    ensures s[k..] == ":" + ("//" + s[k + 3..])
  {
    assert s[k + 1..] == "//" + s[k + 1..][2..];
    assert s[k + 1..][2..] == s[k + 3..];
  }
}
