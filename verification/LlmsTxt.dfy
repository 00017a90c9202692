/** Reading llms.txt: a line-by-line parser with section state, and the records its candidates become. */
module LlmsTxt {
  import opened GoStrings

  /* ---- one list item ---- */

  datatype Link = Link(name: string, url: string, notes: string)

  /** \s of a Go regular expression. */
  predicate IsPatternSpace(c: char) {
    c == '\t' || c == '\n' || c as int == 0x0c || c == '\r' || c == ' '
  }

  predicate AllSpace(s: string) {
    forall i :: 0 <= i < |s| ==> IsPatternSpace(s[i])
  }

  /** The text up to the first `close`, which must not come first, and the text after it. */
  function UpTo(s: string, close: char): Option<(string, string)> {
    if close !in s || Index(s, close) == 0 then None else Some((s[..Index(s, close)], s[Index(s, close) + 1..]))
  }

  /** What may follow the closing parenthesis. */
  function MatchTail(tail: string): Option<string> {
    if tail != "" && tail[0] == ':' then Some(TrimLeft(tail[1..], IsPatternSpace))
    else if AllSpace(tail) then Some("")
    else None
  }

  function MatchBrackets(s: string): Option<Link> {
    if s == "" || s[0] != '[' then None
    else
      var name := UpTo(s[1..], ']');
      if name.None? || name.value.1 == "" || name.value.1[0] != '(' then None
      else
        var url := UpTo(name.value.1[1..], ')');
        if url.None? then None
        else
          var notes := MatchTail(url.value.1);
          if notes.None? then None else Some(Link(name.value.0, url.value.0, notes.value))
  }

  /** llmsLinkPattern on a line without line breaks. */
  function MatchLink(line: string): Option<Link> {
    var s := TrimLeft(line, IsPatternSpace);
    if s == "" || s[0] != '-' then None else MatchBrackets(TrimLeft(s[1..], IsPatternSpace))
  }

  /** The pattern as a grammar. */
  ghost predicate Tail(tail: string, notes: string) {
    || (AllSpace(tail) && notes == "")
    || (exists w :: AllSpace(w) && tail == ":" + w + notes && (notes != "" ==> !IsPatternSpace(notes[0])))
  }

  ghost predicate Item(line: string, w1: string, w2: string, link: Link, tail: string) {
    && line == w1 + ("-" + (w2 + ("[" + (link.name + "]" + ("(" + (link.url + ")" + tail))))))
    && AllSpace(w1) && AllSpace(w2) && link.name != "" && ']' !in link.name && link.url != "" && ')' !in link.url
    && Tail(tail, link.notes)
  }

  lemma UpToConcat(head: string, close: char, tail: string)
    requires head != "" && close !in head
    ensures UpTo(head + [close] + tail, close) == Some((head, tail))
  {
    IndexConcat(head, close, tail);
    var s := head + [close] + tail;
    assert s[..|head|] == head && s[|head| + 1..] == tail;
  }

  lemma UpToParts(s: string, close: char)
    requires UpTo(s, close).Some?
    ensures var (head, tail) := UpTo(s, close).value; head != "" && close !in head && s == head + [close] + tail
  {
    var k := Index(s, close);
    assert s == s[..k] + [s[k]] + s[k + 1..];
  }

  lemma {:induction false} TrimLeftConcat(w: string, s: string)
    requires AllSpace(w) && (s != "" ==> !IsPatternSpace(s[0]))
    ensures TrimLeft(w + s, IsPatternSpace) == s
  {
    if w == "" {
      assert w + s == s;
    } else {
      assert (w + s)[1..] == w[1..] + s;
      TrimLeftConcat(w[1..], s);
    }
  }

  lemma TrimLeftParts(s: string) returns (w: string)
    ensures AllSpace(w) && s == w + TrimLeft(s, IsPatternSpace)
    ensures TrimLeft(s, IsPatternSpace) != "" ==> !IsPatternSpace(TrimLeft(s, IsPatternSpace)[0])
  {
    var k := TrimLeftDrop(s, IsPatternSpace);
    w := s[..k];
  }

  lemma MatchTailExact(tail: string, notes: string)
    ensures MatchTail(tail) == Some(notes) <==> Tail(tail, notes)
  {
    if tail != "" && tail[0] == ':' {
      var w := TrimLeftParts(tail[1..]);
      var rest := TrimLeft(tail[1..], IsPatternSpace);
      assert tail == ":" + w + rest;
      assert Tail(tail, rest);
      assert !IsPatternSpace(':') && !AllSpace(tail);
      if Tail(tail, notes) {
        var v :| AllSpace(v) && tail == ":" + v + notes && (notes != "" ==> !IsPatternSpace(notes[0]));
        assert tail[1..] == v + notes;
        TrimLeftConcat(v, notes);
      }
    }
  }

  lemma MatchBracketsItem(link: Link, tail: string)
    requires link.name != "" && ']' !in link.name && link.url != "" && ')' !in link.url && Tail(tail, link.notes)
    ensures MatchBrackets("[" + (link.name + "]" + ("(" + (link.url + ")" + tail)))) == Some(link)
  {
    var inner := "(" + (link.url + ")" + tail);
    var s := "[" + (link.name + "]" + inner);
    assert s[1..] == link.name + "]" + inner;
    UpToConcat(link.name, ']', inner);
    assert inner[1..] == link.url + ")" + tail;
    UpToConcat(link.url, ')', tail);
    MatchTailExact(tail, link.notes);
  }

  lemma MatchBracketsParts(s: string) returns (tail: string)
    requires MatchBrackets(s).Some?
    ensures var link := MatchBrackets(s).value;
            && s == "[" + (link.name + "]" + ("(" + (link.url + ")" + tail)))
            && link.name != "" && ']' !in link.name && link.url != "" && ')' !in link.url && Tail(tail, link.notes)
  {
    var link := MatchBrackets(s).value;
    var inner := UpTo(s[1..], ']').value.1;
    OpenedParts(s, '[', ']', link.name, inner);
    tail := UpTo(inner[1..], ')').value.1;
    OpenedParts(inner, '(', ')', link.url, tail);
    MatchTailExact(tail, link.notes);
  }

  lemma OpenedParts(s: string, open: char, close: char, head: string, rest: string)
    requires s != "" && s[0] == open && UpTo(s[1..], close) == Some((head, rest))
    ensures s == [open] + (head + [close] + rest) && head != "" && close !in head
  {
    UpToParts(s[1..], close);
    assert s == [s[0]] + s[1..];
  }

  /** The matcher accepts exactly the lines of the grammar, with the same parts; in particular the
      grammar is unambiguous. */
  lemma MatchLinkExact(line: string, link: Link)
    ensures MatchLink(line) == Some(link) <==> exists w1, w2, tail :: Item(line, w1, w2, link, tail)
  {
    if MatchLink(line) == Some(link) {
      var w1, w2, tail := MatchedItem(line, link);
    }
    if w1, w2, tail :| Item(line, w1, w2, link, tail) {
      ItemMatches(line, w1, w2, link, tail);
    }
  }

  lemma MatchedItem(line: string, link: Link) returns (w1: string, w2: string, tail: string)
    requires MatchLink(line) == Some(link)
    ensures Item(line, w1, w2, link, tail)
  {
    w1 := TrimLeftParts(line);
    var s := TrimLeft(line, IsPatternSpace);
    w2 := TrimLeftParts(s[1..]);
    var r := TrimLeft(s[1..], IsPatternSpace);
    tail := MatchBracketsParts(r);
    ItemFrom(line, w1, s, w2, r, link, tail);
  }

  lemma ItemFrom(line: string, w1: string, s: string, w2: string, r: string, link: Link, tail: string)
    requires line == w1 + s && s != "" && s[0] == '-' && s[1..] == w2 + r && AllSpace(w1) && AllSpace(w2)
    requires r == "[" + (link.name + "]" + ("(" + (link.url + ")" + tail)))
    requires link.name != "" && ']' !in link.name && link.url != "" && ')' !in link.url && Tail(tail, link.notes)
    ensures Item(line, w1, w2, link, tail)
  {
    assert s == "-" + s[1..];
  }

  lemma ItemMatches(line: string, w1: string, w2: string, link: Link, tail: string)
    requires Item(line, w1, w2, link, tail)
    ensures MatchLink(line) == Some(link)
  {
    var b := "[" + (link.name + "]" + ("(" + (link.url + ")" + tail)));
    var s := "-" + (w2 + b);
    TrimLeftConcat(w1, s);
    assert s[1..] == w2 + b;
    TrimLeftConcat(w2, b);
    MatchBracketsItem(link, tail);
  }

  /* ---- the parser ---- */

  datatype Candidate = Candidate(name: string, url: string, section: string, notes: string, optional: bool)

  /** A link resolved against the file's own address. */
  datatype Resolved = Resolved(text: string, scheme: string, host: string)

  /** url.Parse on both and ResolveReference; None if either does not parse. */
  type Resolution = (string, string) -> Option<Resolved>

  function ResolveLink(resolve: Resolution, base: string, link: string): Option<string> {
    var r := resolve(TrimSpace(base), TrimSpace(link));
    if r.None? || r.value.scheme == "" || r.value.host == "" then None
    else if r.value.scheme !in ["http", "https", "ws", "wss"] then None
    else Some(r.value.text)
  }

  function Text(name: string, link: string, notes: string, section: string): string {
    ToLower(Join([name, link, notes, section], ' '))
  }

  predicate MentionsMcp(text: string) {
    Contains(text, "mcp") || Contains(text, "model context protocol")
  }

  predicate MentionsAcp(text: string) {
    Contains(text, "acp") || Contains(text, "agent client protocol")
  }

  predicate LooksLikeMcpOrAcp(name: string, link: string, notes: string, section: string) {
    var s := Text(name, link, notes, section);
    MentionsMcp(s) || MentionsAcp(s)
  }

  const HEADING_MARK := "## "

  predicate IsHeading(raw: string) {
    HasPrefix(TrimSpace(raw), HEADING_MARK)
  }

  function HeadingText(raw: string): string {
    TrimSpace(TrimPrefix(TrimSpace(raw), HEADING_MARK))
  }

  /** The candidate a list item contributes under a given heading. */
  function ItemOn(resolve: Resolution, base: string, line: string, section: string): Option<Candidate> {
    var m := MatchLink(line);
    if m.None? then None
    else
      var name, notes := TrimSpace(m.value.name), TrimSpace(m.value.notes);
      var link := ResolveLink(resolve, base, TrimSpace(m.value.url));
      if link.None? || !LooksLikeMcpOrAcp(name, link.value, notes, section) then None
      else Some(Candidate(name, link.value, section, notes, EqualFold(section, "Optional")))
  }

  /** A list item contributes exactly when its link resolves to a URL with a host, of one of four schemes,
      and name, URL, notes or section speak of MCP or ACP. */
  lemma ItemExactly(resolve: Resolution, base: string, line: string, section: string, c: Candidate)
    ensures ItemOn(resolve, base, line, section) == Some(c) <==>
              exists link, r ::
                && MatchLink(line) == Some(link) && resolve(TrimSpace(base), TrimSpace(TrimSpace(link.url))) == Some(r) && r.host != ""
                && (r.scheme == "http" || r.scheme == "https" || r.scheme == "ws" || r.scheme == "wss")
                && Mentions(TrimSpace(link.name) + " " + r.text + " " + TrimSpace(link.notes) + " " + section)
                && c == Candidate(TrimSpace(link.name), r.text, section, TrimSpace(link.notes), EqualFold(section, "Optional"))
  {
    if MatchLink(line).Some? {
      var link := MatchLink(line).value;
      ResolvedExactly(resolve, base, TrimSpace(link.url));
      var text := ResolveLink(resolve, base, TrimSpace(link.url));
      if text.Some? { LooksExactly(TrimSpace(link.name), text.value, TrimSpace(link.notes), section); }
    }
  }

  /** Which links resolve. */
  lemma ResolvedExactly(resolve: Resolution, base: string, link: string)
    ensures var r := resolve(TrimSpace(base), TrimSpace(link));
            ResolveLink(resolve, base, link) ==
              if r.Some? && r.value.host != "" && (r.value.scheme == "http" || r.value.scheme == "https" || r.value.scheme == "ws" || r.value.scheme == "wss")
              then Some(r.value.text) else None
  {}

  lemma LooksExactly(name: string, link: string, notes: string, section: string)
    ensures LooksLikeMcpOrAcp(name, link, notes, section) <==> Mentions(name + " " + link + " " + notes + " " + section)
  {
    SpacedText(name, link, notes, section);
  }

  predicate Mentions(text: string) {
    var s := ToLower(text);
    Contains(s, "mcp") || Contains(s, "acp") || Contains(s, "model context protocol") || Contains(s, "agent client protocol")
  }

  lemma SpacedText(a: string, b: string, c: string, d: string)
    ensures Text(a, b, c, d) == ToLower(a + " " + b + " " + c + " " + d)
  {
    assert [a, b, c, d][1..] == [b, c, d] && [b, c, d][1..] == [c, d] && [c, d][1..] == [d];
    assert Join([c, d], ' ') == c + " " + d;
    assert Join([b, c, d], ' ') == b + " " + (c + " " + d);
    assert Join([a, b, c, d], ' ') == a + " " + (b + " " + (c + " " + d));
    assert a + " " + (b + " " + (c + " " + d)) == a + " " + b + " " + c + " " + d;
  }

  /** A heading is two hashes, a blank and its text; one or three hashes make none. */
  lemma HeadingsExactly(text: string)
    requires text != "" && Trimmed(text, IsSpace)
    ensures IsHeading("## " + text) && HeadingText("## " + text) == text
    ensures !IsHeading("# " + text) && !IsHeading("### " + text)
  {
    HeadingShape("## ", text);
    HeadingShape("# ", text);
    HeadingShape("### ", text);
    TrimTrimmed(text, IsSpace);
    assert ("## " + text)[3..] == text;
    assert ("# " + text)[1] == ' ' && ("### " + text)[2] == '#' && HEADING_MARK[1] == '#' && HEADING_MARK[2] == ' ';
  }

  lemma HeadingShape(mark: string, text: string)
    requires mark != "" && !IsSpace(mark[0]) && text != "" && Trimmed(text, IsSpace)
    ensures TrimSpace(mark + text) == mark + text
  {
    TrimTrimmed(mark + text, IsSpace);
  }

  /** The candidate any line contributes. */
  function CandidateOn(resolve: Resolution, base: string, raw: string, section: string): Option<Candidate> {
    if TrimSpace(raw) == "" || IsHeading(raw) then None else ItemOn(resolve, base, TrimSpace(raw), section)
  }

  /** `h` is the last position below `n` whose line passes the test. */
  predicate LastWith(lines: seq<string>, n: nat, h: int, test: string -> bool) {
    0 <= h < n <= |lines| && test(lines[h]) && forall j :: h < j < n ==> !test(lines[j])
  }

  predicate NoneWith(lines: seq<string>, n: nat, test: string -> bool) {
    n <= |lines| && forall j :: 0 <= j < n ==> !test(lines[j])
  }

  /** The text of the last line below `n` that passes the test. */
  ghost predicate LastText(lines: seq<string>, n: nat, test: string -> bool, text: string -> string, section: string) {
    || (NoneWith(lines, n, test) && section == "")
    || (exists h :: LastWith(lines, n, h, test) && section == text(lines[h]))
  }

  lemma LastTextStep(lines: seq<string>, i: nat, test: string -> bool, text: string -> string, section: string)
    requires i < |lines| && LastText(lines, i, test, text, section)
    ensures LastText(lines, i + 1, test, text, if test(lines[i]) then text(lines[i]) else section)
  {
    if test(lines[i]) {
      assert LastWith(lines, i + 1, i, test);
    } else if h :| LastWith(lines, i, h, test) && section == text(lines[h]) {
      assert LastWith(lines, i + 1, h, test);
    }
  }

  /** The section line `n` belongs to: the last heading before it. */
  ghost predicate SectionAt(lines: seq<string>, n: nat, section: string) {
    LastText(lines, n, raw => IsHeading(raw), raw => HeadingText(raw), section)
  }

  lemma SectionUnique(lines: seq<string>, n: nat, s: string, t: string)
    requires SectionAt(lines, n, s) && SectionAt(lines, n, t)
    ensures s == t
  {}

  /** `cs` lists, in order, what the positions below `n` give: `from` says which, and the others give
      nothing. */
  ghost predicate Picked<T>(gives: (nat, T) -> bool, silent: nat -> bool, from: seq<nat>, cs: seq<T>, n: nat) {
    && |from| == |cs|
    && (forall k :: 0 <= k < |from| ==> from[k] < n)
    && (forall k, l :: 0 <= k < l < |from| ==> from[k] < from[l])
    && (forall k :: 0 <= k < |cs| ==> gives(from[k], cs[k]))
    && (forall i :: 0 <= i < n && i !in from ==> silent(i))
  }

  lemma PickedSnoc<T>(gives: (nat, T) -> bool, silent: nat -> bool, from: seq<nat>, cs: seq<T>, n: nat, c: T)
    requires Picked(gives, silent, from, cs, n) && gives(n, c)
    ensures Picked(gives, silent, from + [n], cs + [c], n + 1)
  {
    var from', cs' := from + [n], cs + [c];
    assert forall k :: 0 <= k < |cs| ==> from'[k] == from[k] && cs'[k] == cs[k];
    assert from'[|from|] == n && cs'[|cs|] == c;
    forall j | 0 <= j < n + 1 && j !in from' ensures silent(j) {
      assert n in from';
      assert j !in from;
    }
  }

  lemma PickedSkip<T>(gives: (nat, T) -> bool, silent: nat -> bool, from: seq<nat>, cs: seq<T>, n: nat)
    requires Picked(gives, silent, from, cs, n) && silent(n)
    ensures Picked(gives, silent, from, cs, n + 1)
  {}

  /** The candidates of the first `n` lines: one for each line that contributes one under the last
      heading before it. */
  ghost predicate CandidatesOf(resolve: Resolution, base: string, lines: seq<string>, from: seq<nat>, cs: seq<Candidate>, n: nat) {
    Picked(Gives(resolve, base, lines), Quiet(resolve, base, lines), from, cs, n)
  }

  ghost function Gives(resolve: Resolution, base: string, lines: seq<string>): (nat, Candidate) -> bool {
    (i: nat, c: Candidate) => FromLine(resolve, base, lines, i, c)
  }

  ghost function Quiet(resolve: Resolution, base: string, lines: seq<string>): nat -> bool {
    (i: nat) => Silent(resolve, base, lines, i)
  }

  /** Line `i` contributes candidate `c`. */
  ghost predicate FromLine(resolve: Resolution, base: string, lines: seq<string>, i: nat, c: Candidate) {
    i < |lines| && SectionAt(lines, i, c.section) && CandidateOn(resolve, base, lines[i], c.section) == Some(c)
  }

  ghost predicate Silent(resolve: Resolution, base: string, lines: seq<string>, i: nat) {
    i < |lines| && exists s :: SectionAt(lines, i, s) && CandidateOn(resolve, base, lines[i], s).None?
  }

  /** bufio.Scanner gives up on a line this long. */
  predicate TooLong(line: string) {
    |line| >= 65536
  }

  /** The end of the loop body: a line that is neither blank nor a heading. */
  method ReadItem(resolve: Resolution, base: string, line: string, section: string, optional: bool) returns (c: Option<Candidate>)
    requires optional == EqualFold(section, "Optional")
    ensures c == ItemOn(resolve, base, line, section)
  {
    var m := MatchLink(line);
    if m.None? {
      return None;
    }
    var name, rawLink, notes := TrimSpace(m.value.name), TrimSpace(m.value.url), TrimSpace(m.value.notes);
    var resolved := ResolveLink(resolve, base, rawLink);
    if resolved.None? {
      return None;
    }
    if !LooksLikeMcpOrAcp(name, resolved.value, notes, section) {
      return None;
    }
    return Some(Candidate(name, resolved.value, section, notes, optional));
  }

  /** The parser's variables. */
  datatype Scan = Scan(section: string, optional: bool, candidates: seq<Candidate>)

  /** Where the parser stands before line `n`: in the section of that line, with what the lines above
      contributed. */
  ghost predicate Scanned(resolve: Resolution, base: string, lines: seq<string>, n: nat, s: Scan, from: seq<nat>) {
    && SectionAt(lines, n, s.section) && s.optional == EqualFold(s.section, "Optional")
    && CandidatesOf(resolve, base, lines, from, s.candidates, n)
  }

  /** The loop body. */
  method ScanLine(resolve: Resolution, base: string, lines: seq<string>, i: nat, s: Scan, ghost from: seq<nat>)
    returns (s': Scan, ghost from': seq<nat>)
    requires i < |lines| && Scanned(resolve, base, lines, i, s, from)
    ensures Scanned(resolve, base, lines, i + 1, s', from')
  {
    s', from' := s, from;
    CandidatesStep(resolve, base, lines, from, s.candidates, i, s.section);
    SectionStep(lines, i, s.section);
    var line := TrimSpace(lines[i]);
    if line == "" {
      BlankIsNoHeading(lines[i]);
      return;
    }
    if HasPrefix(line, HEADING_MARK) {
      s' := s'.(section := TrimSpace(TrimPrefix(line, HEADING_MARK)));
      s' := s'.(optional := EqualFold(s'.section, "Optional"));
      return;
    }
    var c := ReadItem(resolve, base, line, s.section, s.optional);
    if c.Some? {
      s' := s'.(candidates := s.candidates + [c.value]);
      from' := from + [i];
    }
  }

  /** `stands` says where the parser stands. */
  ghost predicate Describes(stands: (nat, Scan, seq<nat>) -> bool, resolve: Resolution, base: string, lines: seq<string>) {
    forall n, s, from {:trigger Scanned(resolve, base, lines, n, s, from)} :: stands(n, s, from) <==> Scanned(resolve, base, lines, n, s, from)
  }

  method ScanNext(resolve: Resolution, base: string, lines: seq<string>, i: nat, s: Scan, ghost from: seq<nat>,
                  ghost stands: (nat, Scan, seq<nat>) -> bool)
    returns (s': Scan, ghost from': seq<nat>)
    requires i < |lines| && Describes(stands, resolve, base, lines) && stands(i, s, from)
    ensures stands(i + 1, s', from')
  {
    assert Scanned(resolve, base, lines, i, s, from);
    s', from' := ScanLine(resolve, base, lines, i, s, from);
  }

  lemma NothingScanned(resolve: Resolution, base: string, lines: seq<string>)
    ensures Scanned(resolve, base, lines, 0, Scan("", false, []), [])
  {
    assert NoneWith(lines, 0, raw => IsHeading(raw));
    assert !EqualFold("", "Optional") by { assert |ToLower("")| == 0 && |ToLower("Optional")| == 8; }
  }

  /** The loop over the lines. */
  method ScanLines(resolve: Resolution, base: string, lines: seq<string>, ghost stands: (nat, Scan, seq<nat>) -> bool)
    returns (r: Option<Scan>, ghost from: seq<nat>)
    requires Describes(stands, resolve, base, lines) && stands(0, Scan("", false, []), [])
    ensures r.None? <==> Overlong(lines)
    ensures r.Some? ==> stands(|lines|, r.value, from)
  {
    var s := Scan("", false, []);
    from := [];
    for i := 0 to |lines|
      invariant stands(i, s, from) && forall j :: 0 <= j < i ==> !TooLong(lines[j])
    {
      if TooLong(lines[i]) {
        return None, [];
      }
      s, from := ScanNext(resolve, base, lines, i, s, from, stands);
    }
    return Some(s), from;
  }

  predicate Overlong(lines: seq<string>) {
    exists i :: 0 <= i < |lines| && TooLong(lines[i])
  }

  /** A line just short of sixty-four kilobytes is read, a longer one is not. */
  lemma ScannerLimit(lines: seq<string>, line: string)
    requires !Overlong(lines)
    ensures Overlong(lines + [line]) <==> |line| > 65535
  {
    assert (lines + [line])[|lines|] == line;
    assert forall i :: 0 <= i < |lines| ==> (lines + [line])[i] == lines[i];
  }

  /** parseLLMSTxtCandidates: None is a scanner error, which discards what was found before it. */
  method ParseCandidates(resolve: Resolution, base: string, content: string) returns (r: Option<seq<Candidate>>, ghost from: seq<nat>)
    ensures r.None? <==> Overlong(Split(content, '\n'))
    ensures r.Some? ==> CandidatesOf(resolve, base, Split(content, '\n'), from, r.value, |Split(content, '\n')|)
  {
    r, from := CandidatesIn(resolve, base, Split(content, '\n'));
  }

  method CandidatesIn(resolve: Resolution, base: string, lines: seq<string>) returns (r: Option<seq<Candidate>>, ghost from: seq<nat>)
    ensures r.None? <==> Overlong(lines)
    ensures r.Some? ==> CandidatesOf(resolve, base, lines, from, r.value, |lines|)
  {
    NothingScanned(resolve, base, lines);
    var s;
    s, from := ScanLines(resolve, base, lines, (n: nat, s: Scan, f: seq<nat>) => Scanned(resolve, base, lines, n, s, f));
    if s.None? {
      return None, [];
    }
    assert Scanned(resolve, base, lines, |lines|, s.value, from);
    return Some(s.value.candidates), from;
  }

  lemma BlankIsNoHeading(raw: string)
    requires TrimSpace(raw) == ""
    ensures !IsHeading(raw)
  {}

  lemma SectionStep(lines: seq<string>, i: nat, section: string)
    requires i < |lines| && SectionAt(lines, i, section)
    ensures SectionAt(lines, i + 1, if IsHeading(lines[i]) then HeadingText(lines[i]) else section)
  {
    LastTextStep(lines, i, raw => IsHeading(raw), raw => HeadingText(raw), section);
  }

  lemma CandidatesStep(resolve: Resolution, base: string, lines: seq<string>, from: seq<nat>, cs: seq<Candidate>, i: nat, section: string)
    requires i < |lines| && SectionAt(lines, i, section) && CandidatesOf(resolve, base, lines, from, cs, i)
    ensures var c := CandidateOn(resolve, base, lines[i], section);
            if c.Some? then CandidatesOf(resolve, base, lines, from + [i], cs + [c.value], i + 1)
            else CandidatesOf(resolve, base, lines, from, cs, i + 1)
  {
    var c := CandidateOn(resolve, base, lines[i], section);
    if c.Some? {
      assert FromLine(resolve, base, lines, i, c.value);
      PickedSnoc(Gives(resolve, base, lines), Quiet(resolve, base, lines), from, cs, i, c.value);
    } else {
      assert Silent(resolve, base, lines, i);
    }
  }

  /** Every candidate carries the last heading before its line, and is optional exactly when that
      heading says so. */
  lemma CandidateSection(resolve: Resolution, base: string, lines: seq<string>, from: seq<nat>, cs: seq<Candidate>, k: nat)
    requires CandidatesOf(resolve, base, lines, from, cs, |lines|) && k < |cs|
    ensures SectionAt(lines, from[k], cs[k].section)
    ensures cs[k].optional <==> EqualFold(cs[k].section, "Optional")
    ensures LooksLikeMcpOrAcp(cs[k].name, cs[k].url, cs[k].notes, cs[k].section)
  {
    assert FromLine(resolve, base, lines, from[k], cs[k]);
  }
}
