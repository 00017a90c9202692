/** Reading feature files, and the reseed plan made straight from them. */
module FeaturePlan {
  import opened GoStrings
  import opened ReseedPlan

  datatype FeatureDoc = FeatureDoc(path: string, name: string, description: string, tags: seq<string>)

  /* ---- one feature file ---- */

  function SolidLen(s: string): (k: nat)
    ensures k <= |s| && Solid(s[..k]) && (k < |s| ==> IsSpace(s[k]))
  {
    if s == "" || IsSpace(s[0]) then 0
    else
      var k := SolidLen(s[1..]);
      assert s[..k + 1] == [s[0]] + s[1..][..k];
      k + 1
  }

  /** strings.Fields */
  function Fields(s: string): (r: seq<string>)
    ensures AllSolid(r) && forall i :: 0 <= i < |r| ==> r[i] != ""
    decreases |s|
  {
    if s == "" then []
    else if IsSpace(s[0]) then Fields(s[1..])
    else [s[..SolidLen(s)]] + Fields(s[SolidLen(s)..])
  }

  predicate Blank(s: string) {
    forall i :: 0 <= i < |s| ==> IsSpace(s[i])
  }

  /** Words laid out between gaps. */
  function Laid(gaps: seq<string>, words: seq<string>): string
    requires |gaps| == |words| + 1
  {
    if words == [] then gaps[0] else gaps[0] + words[0] + Laid(gaps[1..], words[1..])
  }

  /** Gaps are white space, and there is some between any two words; words are solid. */
  predicate LaidOut(gaps: seq<string>, words: seq<string>) {
    && |gaps| == |words| + 1 && (forall i :: 0 <= i < |gaps| ==> Blank(gaps[i]))
    && (forall i :: 0 < i < |words| ==> gaps[i] != "") && AllSolid(words) && forall i :: 0 <= i < |words| ==> words[i] != ""
  }

  lemma {:induction false} GapSkipped(gap: string, rest: string)
    requires Blank(gap)
    ensures Fields(gap + rest) == Fields(rest)
    decreases |gap|
  {
    if gap == "" {
      assert gap + rest == rest;
    } else {
      assert (gap + rest)[1..] == gap[1..] + rest;
      GapSkipped(gap[1..], rest);
    }
  }

  lemma {:induction false} SolidLenConcat(word: string, rest: string)
    requires Solid(word) && (rest != "" ==> IsSpace(rest[0]))
    ensures SolidLen(word + rest) == |word|
  {
    var s := word + rest;
    var k := SolidLen(s);
    assert forall i :: 0 <= i < |word| ==> s[i] == word[i];
    assert forall j :: |word| < j <= |s| ==> s[..j][|word|] == s[|word|];
  }

  /** Fields reads back the words of every layout; in particular it finds all the runs of characters that
      are not white space, each whole, in order. */
  lemma {:induction false} FieldsOfLaid(gaps: seq<string>, words: seq<string>)
    requires LaidOut(gaps, words)
    ensures Fields(Laid(gaps, words)) == words
    decreases |words|
  {
    if words == [] {
      GapSkipped(gaps[0], "");
      assert gaps[0] + "" == gaps[0];
    } else {
      var rest := Laid(gaps[1..], words[1..]);
      LaidOutRest(gaps, words);
      StartsBlank(gaps[1..], words[1..]);
      assert gaps[0] + words[0] + rest == gaps[0] + (words[0] + rest);
      GapSkipped(gaps[0], words[0] + rest);
      FieldsWord(words[0], rest);
      FieldsOfLaid(gaps[1..], words[1..]);
    }
  }

  lemma FieldsWord(word: string, rest: string)
    requires Solid(word) && word != "" && (rest != "" ==> IsSpace(rest[0]))
    ensures Fields(word + rest) == [word] + Fields(rest)
  {
    var s := word + rest;
    SolidLenConcat(word, rest);
    assert s[..|word|] == word && s[|word|..] == rest && s[0] == word[0];
  }

  lemma LaidOutRest(gaps: seq<string>, words: seq<string>)
    requires LaidOut(gaps, words) && words != []
    ensures LaidOut(gaps[1..], words[1..]) && (words[1..] != [] ==> gaps[1..][0] != "")
  {
    assert forall i :: 0 <= i < |gaps| - 1 ==> gaps[1..][i] == gaps[i + 1];
    assert forall i :: 0 <= i < |words| - 1 ==> words[1..][i] == words[i + 1];
  }

  lemma StartsBlank(gaps: seq<string>, words: seq<string>)
    requires |gaps| == |words| + 1 && Blank(gaps[0]) && (words != [] ==> gaps[0] != "")
    ensures Laid(gaps, words) != "" ==> IsSpace(Laid(gaps, words)[0])
  {}

  /** And every text is such a layout of its fields. */
  lemma {:induction false} FieldsLaidOut(s: string) returns (gaps: seq<string>)
    ensures LaidOut(gaps, Fields(s)) && Laid(gaps, Fields(s)) == s
    ensures s != "" && !IsSpace(s[0]) ==> gaps[0] == ""
    ensures s != "" && IsSpace(s[0]) ==> gaps[0] != ""
    decreases |s|
  {
    if s == "" {
      gaps := [""];
    } else if IsSpace(s[0]) {
      var g := FieldsLaidOut(s[1..]);
      gaps := LaidSpace(s[0], g, Fields(s[1..]));
      assert s == [s[0]] + s[1..];
    } else {
      var k := SolidLen(s);
      var g := FieldsLaidOut(s[k..]);
      gaps := [""] + g;
      AfterWord(s[k..], g);
      LaidWord(s[..k], g, Fields(s[k..]));
      assert s == s[..k] + s[k..];
    }
  }

  lemma AfterWord(rest: string, g: seq<string>)
    requires |g| == |Fields(rest)| + 1 && (rest != "" && IsSpace(rest[0]) ==> g[0] != "") && (rest != "" ==> IsSpace(rest[0]))
    ensures Fields(rest) != [] ==> g[0] != ""
  {}

  /** One more white-space character in front. */
  lemma LaidSpace(c: char, g: seq<string>, words: seq<string>) returns (gaps: seq<string>)
    requires LaidOut(g, words) && IsSpace(c)
    ensures LaidOut(gaps, words) && gaps[0] != "" && Laid(gaps, words) == [c] + Laid(g, words)
  {
    gaps := [[c] + g[0]] + g[1..];
    assert gaps[1..] == g[1..];
    assert forall i :: 0 < i < |gaps| ==> gaps[i] == g[i];
    LaidFront(gaps, g, c, words);
  }

  /** One more word in front. */
  lemma LaidWord(word: string, g: seq<string>, words: seq<string>)
    requires LaidOut(g, words) && Solid(word) && word != "" && (words != [] ==> g[0] != "")
    ensures LaidOut([""] + g, [word] + words) && Laid([""] + g, [word] + words) == word + Laid(g, words)
  {
    var gaps, all := [""] + g, [word] + words;
    assert gaps[1..] == g && all[1..] == words;
    assert forall i :: 0 < i < |gaps| ==> gaps[i] == g[i - 1];
    assert forall i :: 0 < i < |all| ==> all[i] == words[i - 1];
  }

  lemma LaidFront(gaps: seq<string>, g: seq<string>, c: char, words: seq<string>)
    requires |gaps| == |g| == |words| + 1 && gaps[0] == [c] + g[0] && gaps[1..] == g[1..]
    ensures Laid(gaps, words) == [c] + Laid(g, words)
  {
    if words != [] { Regrouped(c, g[0], words[0], Laid(g[1..], words[1..])); }
  }

  lemma Regrouped(c: char, gap: string, word: string, rest: string)
    ensures ([c] + gap) + word + rest == [c] + (gap + word + rest)
  {}

  const FEATURE_MARK := "Feature:"

  predicate OpensFeature(raw: string) {
    !HasPrefix(TrimSpace(raw), "@") && HasPrefix(TrimSpace(raw), FEATURE_MARK)
  }

  predicate IsGherkinKeyword(line: string) {
    || HasPrefix(line, "Background:") || HasPrefix(line, "Scenario:") || HasPrefix(line, "Scenario Outline:")
    || HasPrefix(line, "Scenario Template:") || HasPrefix(line, "Rule:") || HasPrefix(line, "Example:") || HasPrefix(line, "Examples:")
  }

  /** The keywords that end a description: each with its colon. */
  lemma KeywordsExactly(word: string, rest: string)
    requires ':' !in word
    ensures IsGherkinKeyword(word + ":" + rest) <==>
              word in ["Background", "Scenario", "Scenario Outline", "Scenario Template", "Rule", "Example", "Examples"]
  {
    ColonWords();
    PrefixWord(word, rest, "Background"); PrefixWord(word, rest, "Scenario"); PrefixWord(word, rest, "Scenario Outline");
    PrefixWord(word, rest, "Scenario Template"); PrefixWord(word, rest, "Rule"); PrefixWord(word, rest, "Example");
    PrefixWord(word, rest, "Examples");
  }

  lemma PrefixWord(word: string, rest: string, w: string)
    requires ':' !in word && ':' !in w
    ensures HasPrefix(word + ":" + rest, w + ":") <==> word == w
  {
    var line := word + ":" + rest;
    if HasPrefix(line, w + ":") {
      assert line == w + ":" + line[|w| + 1..];
      IndexConcat(word, ':', rest);
      IndexConcat(w, ':', line[|w| + 1..]);
      assert word == line[..|word|] && w == line[..|w|];
    }
    assert word + ":" <= line;
  }

  lemma ColonWords()
    ensures "Background:" == "Background" + ":" && "Scenario:" == "Scenario" + ":" && "Scenario Outline:" == "Scenario Outline" + ":"
    ensures "Scenario Template:" == "Scenario Template" + ":" && "Rule:" == "Rule" + ":" && "Example:" == "Example" + ":"
    ensures "Examples:" == "Examples" + ":"
    ensures forall w :: w in ["Background", "Scenario", "Scenario Outline", "Scenario Template", "Rule", "Example", "Examples"] ==> ':' !in w
  {}

  predicate EndsDescription(raw: string) {
    IsGherkinKeyword(TrimSpace(raw)) || HasPrefix(TrimSpace(raw), "@")
  }

  predicate SaysNothing(raw: string) {
    TrimSpace(raw) == "" || HasPrefix(TrimSpace(raw), "#")
  }

  /** What a line is, once trimmed: the Feature line, a tag line, one that ends a description, or one that
      adds nothing to it. */
  lemma LineKinds(raw: string)
    ensures OpensFeature(raw) <==> "Feature:" <= TrimSpace(raw)
    ensures EndsDescription(raw) <==> "@" <= TrimSpace(raw) || IsGherkinKeyword(TrimSpace(raw))
    ensures SaysNothing(raw) <==> IsBlank(raw) || "#" <= TrimSpace(raw)
  {
    if FEATURE_MARK <= TrimSpace(raw) { assert TrimSpace(raw)[0] == FEATURE_MARK[0] == 'F'; }
  }

  /** The first line from `k` on with the property, or the number of lines. */
  function FirstFrom(lines: seq<string>, k: nat, test: string -> bool): (r: nat)
    requires k <= |lines|
    ensures k <= r <= |lines| && (forall i :: k <= i < r ==> !test(lines[i])) && (r < |lines| ==> test(lines[r]))
    decreases |lines| - k
  {
    if k == |lines| || test(lines[k]) then k else FirstFrom(lines, k + 1, test)
  }

  /** The tags on the tag lines among the first `n`. */
  function TagsBefore(lines: seq<string>, n: nat): (tags: seq<string>)
    requires n <= |lines|
    ensures AllSolid(tags)
  {
    if n == 0 then []
    else if HasPrefix(TrimSpace(lines[n - 1]), "@") then TagsBefore(lines, n - 1) + Fields(TrimSpace(lines[n - 1]))
    else TagsBefore(lines, n - 1)
  }

  /** The tags of a file whose last line is a tag line, or another. */
  lemma TagLine(lines: seq<string>, raw: string)
    ensures TagsBefore(lines + [raw], |lines| + 1) ==
              TagsBefore(lines, |lines|) + if "@" <= TrimSpace(raw) then Fields(TrimSpace(raw)) else []
  {
    TagsUnfold(lines + [raw], |lines|, raw);
    TagsShift(lines, [raw], |lines|);
  }

  lemma TagsUnfold(lines: seq<string>, n: nat, raw: string)
    requires n < |lines| && lines[n] == raw
    ensures TagsBefore(lines, n + 1) == TagsBefore(lines, n) + if "@" <= TrimSpace(raw) then Fields(TrimSpace(raw)) else []
  {}

  /** The trimmed lines of a range that say something. */
  function Prose(lines: seq<string>, a: nat, b: nat): seq<string>
    requires a <= b <= |lines|
  {
    if a == b then []
    else if SaysNothing(lines[b - 1]) then Prose(lines, a, b - 1)
    else Prose(lines, a, b - 1) + [TrimSpace(lines[b - 1])]
  }

  function NameOn(raw: string): string {
    TrimSpace(TrimPrefix(TrimSpace(raw), FEATURE_MARK))
  }

  /** The parts of a feature file: tags above the Feature line, its name, and the description below
      it down to the first keyword or tag. */
  function Feature(path: string, lines: seq<string>): FeatureDoc {
    FeatureBy(path, lines, OpensFeature, EndsDescription)
  }

  function FeatureBy(path: string, lines: seq<string>, opens: string -> bool, ends: string -> bool): FeatureDoc {
    var f := FirstFrom(lines, 0, opens);
    if f == |lines| then FeatureDoc(path, "", "", TagsBefore(lines, f))
    else FeatureDoc(path, NameOn(lines[f]), Join(Prose(lines, f + 1, FirstFrom(lines, f + 1, ends)), ' '), TagsBefore(lines, f))
  }

  lemma {:induction false} ProseShift(front: seq<string>, lines: seq<string>, back: seq<string>, n: nat)
    requires n <= |lines|
    ensures Prose(front + lines + back, |front|, |front| + n) == Prose(lines, 0, n)
  {
    if n > 0 {
      ProseShift(front, lines, back, n - 1);
      assert (front + lines + back)[|front| + n - 1] == lines[n - 1];
    }
  }

  lemma {:induction false} TagsShift(lines: seq<string>, back: seq<string>, n: nat)
    requires n <= |lines|
    ensures TagsBefore(lines + back, n) == TagsBefore(lines, n)
  {
    if n > 0 {
      TagsShift(lines, back, n - 1);
      assert (lines + back)[n - 1] == lines[n - 1];
    }
  }

  function Parts(above: seq<string>, opening: string, prose: seq<string>, below: seq<string>): seq<string> {
    above + [opening] + prose + below
  }

  lemma PartsAt(above: seq<string>, opening: string, prose: seq<string>, below: seq<string>)
    ensures var lines := Parts(above, opening, prose, below);
            && |lines| == |above| + 1 + |prose| + |below| && lines[|above|] == opening
            && (forall i :: 0 <= i < |above| ==> lines[i] == above[i])
            && (forall i :: |above| < i < |above| + 1 + |prose| ==> lines[i] == prose[i - |above| - 1])
            && (below != [] ==> lines[|above| + 1 + |prose|] == below[0])
  {}

  lemma FirstFromIs(lines: seq<string>, k: nat, r: nat, test: string -> bool)
    requires k <= r <= |lines| && (forall i :: k <= i < r ==> !test(lines[i])) && (r < |lines| ==> test(lines[r]))
    ensures FirstFrom(lines, k, test) == r
  {}

  lemma FirstsOfParts(above: seq<string>, opening: string, prose: seq<string>, below: seq<string>, opens: string -> bool, ends: string -> bool)
    requires (forall i :: 0 <= i < |above| ==> !opens(above[i])) && opens(opening)
    requires (forall i :: 0 <= i < |prose| ==> !ends(prose[i])) && (below != [] ==> ends(below[0]))
    ensures var lines := Parts(above, opening, prose, below);
            Found(lines, |above|, |above| + 1 + |prose|, opening, opens, ends)
  {
    PartsAt(above, opening, prose, below);
    var lines := Parts(above, opening, prose, below);
    FirstFromIs(lines, 0, |above|, opens);
    FirstFromIs(lines, |above| + 1, |above| + 1 + |prose|, ends);
  }

  /** Where the parts of a file are found. */
  ghost predicate Found(lines: seq<string>, a: nat, b: nat, opening: string, opens: string -> bool, ends: string -> bool) {
    && a < b <= |lines| && lines[a] == opening
    && FirstFrom(lines, 0, opens) == a && FirstFrom(lines, a + 1, ends) == b
  }

  lemma FeatureFrom(path: string, lines: seq<string>, a: nat, b: nat, opening: string, prose: seq<string>, tags: seq<string>,
                    opens: string -> bool, ends: string -> bool)
    requires Found(lines, a, b, opening, opens, ends) && Prose(lines, a + 1, b) == prose && TagsBefore(lines, a) == tags
    ensures FeatureBy(path, lines, opens, ends) == FeatureDoc(path, NameOn(opening), Join(prose, ' '), tags)
  {}

  lemma ProseOfParts(above: seq<string>, opening: string, prose: seq<string>, below: seq<string>)
    ensures var lines := Parts(above, opening, prose, below);
            && |lines| >= |above| + 1 + |prose|
            && Prose(lines, |above| + 1, |above| + 1 + |prose|) == Prose(prose, 0, |prose|)
            && TagsBefore(lines, |above|) == TagsBefore(above, |above|)
  {
    ProseShift(above + [opening], prose, below, |prose|);
    assert Parts(above, opening, prose, below) == above + ([opening] + prose + below);
    TagsShift(above, [opening] + prose + below, |above|);
  }

  lemma FeatureByParts(path: string, above: seq<string>, opening: string, prose: seq<string>, below: seq<string>,
                       opens: string -> bool, ends: string -> bool)
    requires (forall i :: 0 <= i < |above| ==> !opens(above[i])) && opens(opening)
    requires (forall i :: 0 <= i < |prose| ==> !ends(prose[i])) && (below != [] ==> ends(below[0]))
    ensures FeatureBy(path, Parts(above, opening, prose, below), opens, ends)
         == FeatureDoc(path, NameOn(opening), Join(Prose(prose, 0, |prose|), ' '), TagsBefore(above, |above|))
  {
    FirstsOfParts(above, opening, prose, below, opens, ends);
    ProseOfParts(above, opening, prose, below);
    FeatureFrom(path, Parts(above, opening, prose, below), |above|, |above| + 1 + |prose|, opening,
                Prose(prose, 0, |prose|), TagsBefore(above, |above|), opens, ends);
  }

  /** A file put together from its parts is read as them: lines above the Feature line, that line, a
      description, and whatever comes after the first line that ends it. */
  lemma FeatureOfParts(path: string, above: seq<string>, opening: string, prose: seq<string>, below: seq<string>)
    requires (forall i :: 0 <= i < |above| ==> !OpensFeature(above[i])) && OpensFeature(opening)
    requires (forall i :: 0 <= i < |prose| ==> !EndsDescription(prose[i])) && (below != [] ==> EndsDescription(below[0]))
    ensures Feature(path, Parts(above, opening, prose, below))
         == FeatureDoc(path, NameOn(opening), Join(Prose(prose, 0, |prose|), ' '), TagsBefore(above, |above|))
  {
    FeatureByParts(path, above, opening, prose, below, OpensFeature, EndsDescription);
  }

  /** The reader's variables. */
  datatype Reader = Reader(inFeature: bool, name: string, tags: seq<string>, prose: seq<string>)

  /** Where the reader stands before line `i`. */
  ghost predicate ReadTo(lines: seq<string>, i: nat, r: Reader) {
    var f := FirstFrom(lines, 0, OpensFeature);
    if !r.inFeature then i <= f && r == Reader(false, "", TagsBefore(lines, i), [])
    else
      && f < |lines| && f < i <= FirstFrom(lines, f + 1, EndsDescription)
      && r == Reader(true, NameOn(lines[f]), TagsBefore(lines, f), Prose(lines, f + 1, i))
  }

  /** A line above the Feature line, or that line. */
  method ReadHeader(lines: seq<string>, i: nat, r: Reader) returns (r': Reader)
    requires i < |lines| && !r.inFeature && ReadTo(lines, i, r)
    ensures ReadTo(lines, i + 1, r')
  {
    r' := r;
    var line := TrimSpace(lines[i]);
    if HasPrefix(line, "@") {
      r' := r.(tags := r.tags + Fields(line));
    } else if HasPrefix(line, FEATURE_MARK) {
      r' := r.(name := TrimSpace(TrimPrefix(line, FEATURE_MARK)), inFeature := true);
    }
  }

  lemma ReadMore(lines: seq<string>, i: nat, r: Reader)
    requires i < |lines| && r.inFeature && ReadTo(lines, i, r) && !EndsDescription(lines[i])
    ensures ReadTo(lines, i + 1, if SaysNothing(lines[i]) then r else r.(prose := r.prose + [TrimSpace(lines[i])]))
  {
    var f := FirstFrom(lines, 0, OpensFeature);
    FirstFromBeyond(lines, f + 1, i, EndsDescription);
    ProseStep(lines, f + 1, i);
  }

  lemma FirstFromBeyond(lines: seq<string>, k: nat, i: nat, test: string -> bool)
    requires k <= i < |lines| && i <= FirstFrom(lines, k, test) && !test(lines[i])
    ensures i + 1 <= FirstFrom(lines, k, test)
  {}

  lemma ProseStep(lines: seq<string>, a: nat, b: nat)
    requires a <= b < |lines|
    ensures Prose(lines, a, b + 1) == if SaysNothing(lines[b]) then Prose(lines, a, b) else Prose(lines, a, b) + [TrimSpace(lines[b])]
  {}

  /** A line below it. */
  method ReadBody(lines: seq<string>, i: nat, r: Reader) returns (r': Reader, stop: bool)
    requires i < |lines| && r.inFeature && ReadTo(lines, i, r)
    ensures stop <==> EndsDescription(lines[i])
    ensures if stop then r' == r else ReadTo(lines, i + 1, r') && r'.inFeature
  {
    r', stop := r, false;
    var line := TrimSpace(lines[i]);
    if IsGherkinKeyword(line) || HasPrefix(line, "@") {
      stop := true;
      return;
    }
    ReadMore(lines, i, r);
    if line == "" || HasPrefix(line, "#") {
      return;
    }
    r' := r.(prose := r.prose + [line]);
  }

  lemma ReadAll(path: string, lines: seq<string>, i: nat, r: Reader)
    requires i <= |lines| && ReadTo(lines, i, r) && (i < |lines| ==> r.inFeature && EndsDescription(lines[i]))
    ensures FeatureDoc(path, r.name, Join(r.prose, ' '), r.tags) == Feature(path, lines)
  {
    if r.inFeature {
      var e := FirstFrom(lines, FirstFrom(lines, 0, OpensFeature) + 1, EndsDescription);
      assert i == e;
    }
  }

  /** The loop body of parseFeatureFile. */
  method ReadLine(lines: seq<string>, i: nat, r: Reader) returns (r': Reader, stop: bool)
    requires i < |lines| && ReadTo(lines, i, r)
    ensures if stop then r' == r && r.inFeature && EndsDescription(lines[i]) else ReadTo(lines, i + 1, r')
  {
    if !r.inFeature {
      r' := ReadHeader(lines, i, r);
      return r', false;
    }
    r', stop := ReadBody(lines, i, r);
  }

  lemma NothingRead(lines: seq<string>)
    ensures ReadTo(lines, 0, Reader(false, "", [], []))
  {}

  /** `stands` says where the reader stands. */
  ghost predicate Describes(stands: (nat, Reader) -> bool, lines: seq<string>) {
    forall i, r {:trigger ReadTo(lines, i, r)} :: stands(i, r) <==> ReadTo(lines, i, r)
  }

  method ReadNext(lines: seq<string>, i: nat, r: Reader, ghost stands: (nat, Reader) -> bool) returns (r': Reader, stop: bool)
    requires Describes(stands, lines) && i < |lines| && stands(i, r)
    ensures if stop then r' == r && r.inFeature && EndsDescription(lines[i]) else stands(i + 1, r')
  {
    assert ReadTo(lines, i, r);
    r', stop := ReadLine(lines, i, r);
    assert ReadTo(lines, i + 1, r') || stop;
  }

  /** The loop of parseFeatureFile. */
  method ReadLines(lines: seq<string>, ghost stands: (nat, Reader) -> bool) returns (r: Reader, ghost i: nat)
    requires Describes(stands, lines) && stands(0, Reader(false, "", [], []))
    ensures i <= |lines| && stands(i, r) && (i < |lines| ==> r.inFeature && EndsDescription(lines[i]))
  {
    r := Reader(false, "", [], []);
    for k := 0 to |lines|
      invariant stands(k, r)
    {
      var next, stop := ReadNext(lines, k, r, stands);
      if stop {
        return r, k;
      }
      r := next;
    }
    return r, |lines|;
  }

  /** parseFeatureFile reads the parts off in one pass. */
  method ParseFeatureFile(path: string, data: string) returns (doc: FeatureDoc)
    ensures doc == Feature(path, Split(data, '\n'))
  {
    var lines := Split(data, '\n');
    NothingRead(lines);
    var r, i := ReadLines(lines, (i: nat, r: Reader) => ReadTo(lines, i, r));
    ReadAll(path, lines, i, r);
    return FeatureDoc(path, r.name, Join(r.prose, ' '), r.tags);
  }

  /* ---- the plan ---- */

  /** What the repository's index and the file system say about a path: its chunk, or why it has none, and
      the alias its file name gives. */
  datatype Paths = Paths(chunk: string -> ChunkRef, alias: string -> string)

  datatype ChunkRef = Chunk(id: string) | NoChunk(reason: string)

  /** A query offered to the plan, the feature it comes from, and whether it comes from a tag. */
  datatype Sourced = Sourced(learn: Learn, feature: nat, tag: bool)

  function TagLists(fs: seq<FeatureDoc>): (r: seq<seq<string>>)
    ensures |r| == |fs| && forall i :: 0 <= i < |fs| ==> r[i] == fs[i].tags
  {
    seq(|fs|, i requires 0 <= i < |fs| => fs[i].tags)
  }

  function Queries(paths: Paths, lists: seq<seq<string>>, f: FeatureDoc): seq<string> {
    [f.name, paths.alias(f.path)] + TagQueries(lists, f.tags)
  }

  function Label(queries: seq<string>, chunk: string, feature: nat): (r: seq<Sourced>)
    ensures |r| == |queries| && forall k :: 0 <= k < |r| ==> r[k] == Sourced(Learn(queries[k], chunk), feature, k >= 2)
  {
    seq(|queries|, k requires 0 <= k < |queries| => Sourced(Learn(queries[k], chunk), feature, k >= 2))
  }

  /** Everything the first `n` features offer, in order. */
  function Offers(paths: Paths, fs: seq<FeatureDoc>, n: nat): seq<Sourced>
    requires n <= |fs|
  {
    if n == 0 then []
    else
      var f := fs[n - 1];
      var chunk := paths.chunk(f.path);
      if chunk.NoChunk? then Offers(paths, fs, n - 1)
      else Offers(paths, fs, n - 1) + Label(Queries(paths, TagLists(fs), f), chunk.id, n - 1)
  }

  /** A feature's name and description on one line. */
  function SummaryLine(f: FeatureDoc): string {
    var name, description := TrimSpace(f.name), TrimSpace(f.description);
    if name == "" then description
    else if description == "" then name
    else name + " \U{2014} " + description
  }

  /** A summary is what there is of name and description, with a dash between them if there are both. */
  lemma SummaryExactly(f: FeatureDoc)
    ensures SummaryLine(f) == "" <==> IsBlank(f.name) && IsBlank(f.description)
    ensures IsBlank(f.name) ==> SummaryLine(f) == TrimSpace(f.description)
    ensures IsBlank(f.description) ==> SummaryLine(f) == TrimSpace(f.name)
    ensures !IsBlank(f.name) && !IsBlank(f.description) ==>
              SummaryLine(f) == TrimSpace(f.name) + " \U{2014} " + TrimSpace(f.description)
  {}

  /** A feature offers its name, the alias of its file, and the tags no other feature carries. */
  lemma QueriesExactly(paths: Paths, lists: seq<seq<string>>, f: FeatureDoc, q: string)
    ensures q in Queries(paths, lists, f) <==>
              q == f.name || q == paths.alias(f.path) || (Carries(f.tags, q) && Carrying(lists, q) == 1)
    ensures Queries(paths, lists, f)[0] == f.name && Queries(paths, lists, f)[1] == paths.alias(f.path)
  {
    TagQueriesFacts(lists, f.tags);
  }

  /** The summaries of the features that have a chunk. */
  function Summaries(paths: Paths, fs: seq<FeatureDoc>, n: nat): seq<Summary>
    requires n <= |fs|
  {
    if n == 0 then []
    else
      var chunk := paths.chunk(fs[n - 1].path);
      if chunk.NoChunk? then Summaries(paths, fs, n - 1)
      else Summaries(paths, fs, n - 1) + [Summary(chunk.id, SummaryLine(fs[n - 1]))]
  }

  /** The failures of the features that have none. */
  function Unresolved(paths: Paths, fs: seq<FeatureDoc>, n: nat): seq<string>
    requires n <= |fs|
  {
    if n == 0 then []
    else
      var chunk := paths.chunk(fs[n - 1].path);
      if chunk.NoChunk? then Unresolved(paths, fs, n - 1) + [fs[n - 1].path + ": " + chunk.reason]
      else Unresolved(paths, fs, n - 1)
  }

  function Learns(s: seq<Sourced>): (r: seq<Learn>)
    ensures |r| == |s| && forall i :: 0 <= i < |s| ==> r[i] == s[i].learn
  {
    seq(|s|, i requires 0 <= i < |s| => s[i].learn)
  }

  method FeatureQueries(paths: Paths, f: FeatureDoc, frequency: map<string, int>, ghost lists: seq<seq<string>>)
    returns (queries: seq<string>)
    requires forall name :: Count(frequency, name) == Carrying(lists, name)
    ensures queries == Queries(paths, lists, f)
  {
    queries := [f.name, paths.alias(f.path)];
    for t := 0 to |f.tags|
      invariant queries == [f.name, paths.alias(f.path)] + TagQueries(lists, f.tags[..t])
    {
      assert f.tags[..t + 1][..t] == f.tags[..t];
      var name := TagName(f.tags[t]);
      if name == "" || Count(frequency, name) != 1 {
        continue;
      }
      queries := queries + [name];
    }
    assert f.tags[..|f.tags|] == f.tags;
  }

  lemma OfferAllSnoc(l: Ledger, offers: seq<Learn>, o: Learn)
    ensures OfferAll(l, offers + [o]) == Offer(OfferAll(l, offers), o)
  {
    assert (offers + [o])[..|offers|] == offers;
  }

  method OfferQueries(p: Plan, queries: seq<string>, chunk: string, feature: nat, ghost before: seq<Sourced>)
    requires p.Valid() && p.State() == Planned(Learns(before))
    modifies p`learns, p`learnIndex, p`warnings
    ensures p.Valid() && p.State() == Planned(Learns(before + Label(queries, chunk, feature)))
  {
    assert before + Label(queries, chunk, feature)[..0] == before;
    for k := 0 to |queries|
      invariant p.Valid() && p.State() == Planned(Learns(before + Label(queries, chunk, feature)[..k]))
    {
      ghost var sofar := before + Label(queries, chunk, feature)[..k];
      p.AddLearn(queries[k], chunk);
      assert before + Label(queries, chunk, feature)[..k + 1] == sofar + [Label(queries, chunk, feature)[k]];
      assert Learns(sofar + [Label(queries, chunk, feature)[k]]) == Learns(sofar) + [Learn(queries[k], chunk)];
      OfferAllSnoc(Ledger([], []), Learns(sofar), Learn(queries[k], chunk));
    }
    assert Label(queries, chunk, feature)[..|queries|] == Label(queries, chunk, feature);
  }

  /** The plan of the first `n` features. */
  ghost predicate PlanOf(p: Plan, paths: Paths, fs: seq<FeatureDoc>, n: nat)
    requires n <= |fs|
    reads p
  {
    && p.Valid() && p.State() == Planned(Learns(Offers(paths, fs, n)))
    && p.summaries == Summaries(paths, fs, n) && p.failures == Unresolved(paths, fs, n)
  }

  /** The loop body of buildFeaturePlan. */
  method PlanFeature(p: Plan, paths: Paths, fs: seq<FeatureDoc>, i: nat, frequency: map<string, int>)
    requires i < |fs| && forall name :: Count(frequency, name) == Carrying(TagLists(fs), name)
    requires PlanOf(p, paths, fs, i)
    modifies p
    ensures PlanOf(p, paths, fs, i + 1)
  {
    var chunk := paths.chunk(fs[i].path);
    if chunk.NoChunk? {
      p.AddFailure(fs[i].path, chunk.reason);
      return;
    }
    p.AddSummary(chunk.id, SummaryLine(fs[i]));
    var queries := FeatureQueries(paths, fs[i], frequency, TagLists(fs));
    OfferQueries(p, queries, chunk.id, i, Offers(paths, fs, i));
  }

  /** buildFeaturePlan */
  method BuildFeaturePlan(paths: Paths, fs: seq<FeatureDoc>) returns (p: Plan)
    ensures fresh(p) && PlanOf(p, paths, fs, |fs|) && p.inputs == [InputCount("feature files", |fs|)]
  {
    p := new Plan([InputCount("feature files", |fs|)]);
    var frequency := TagFrequency(TagLists(fs));
    for i := 0 to |fs|
      invariant PlanOf(p, paths, fs, i)
    {
      PlanFeature(p, paths, fs, i, frequency);
    }
  }

  lemma {:induction false} OfferSources(paths: Paths, fs: seq<FeatureDoc>, n: nat)
    requires n <= |fs|
    ensures forall s :: s in Offers(paths, fs, n) ==>
              && s.feature < n && paths.chunk(fs[s.feature].path) == Chunk(s.learn.chunk)
              && (s.tag ==> s.learn.query in TagQueries(TagLists(fs), fs[s.feature].tags))
  {
    if n > 0 {
      OfferSources(paths, fs, n - 1);
      var f := fs[n - 1];
      var queries := Queries(paths, TagLists(fs), f);
      assert forall k :: 2 <= k < |queries| ==> queries[k] in TagQueries(TagLists(fs), f.tags);
    }
  }

  lemma TagOffersDiffer(paths: Paths, fs: seq<FeatureDoc>, s: Sourced, t: Sourced)
    requires forall i :: 0 <= i < |fs| ==> AllSolid(fs[i].tags)
    requires s in Offers(paths, fs, |fs|) && t in Offers(paths, fs, |fs|) && s.tag && t.tag && s.feature < t.feature
    ensures TrimSpace(s.learn.query) != TrimSpace(t.learn.query)
  {
    OfferSources(paths, fs, |fs|);
    FeatureTagsNeverCollide();
    assert ListsOf(t => Solid(t), TagLists(fs));
    assert !Collide(TagLists(fs), s.feature, t.feature, s.learn.query, t.learn.query);
  }

  /** Two offers from tags for one query come from one feature, and so agree on the chunk. */
  lemma TagOffersAgree(paths: Paths, fs: seq<FeatureDoc>, s: Sourced, t: Sourced)
    requires forall i :: 0 <= i < |fs| ==> AllSolid(fs[i].tags)
    requires s in Offers(paths, fs, |fs|) && t in Offers(paths, fs, |fs|) && s.tag && t.tag
    requires TrimSpace(s.learn.query) == TrimSpace(t.learn.query)
    ensures s.feature == t.feature && s.learn.chunk == t.learn.chunk
  {
    OfferSources(paths, fs, |fs|);
    if s.feature < t.feature {
      TagOffersDiffer(paths, fs, s, t);
    } else if t.feature < s.feature {
      TagOffersDiffer(paths, fs, t, s);
    }
  }

  /** Whenever the plan warns about a query, a feature's name or alias is involved: tags alone never
      make a query ambiguous. */
  lemma TagsNeverWarn(paths: Paths, fs: seq<FeatureDoc>, q: string)
    requires forall i :: 0 <= i < |fs| ==> AllSolid(fs[i].tags)
    requires q in Planned(Learns(Offers(paths, fs, |fs|))).warnings
    ensures exists s :: s in Offers(paths, fs, |fs|) && !s.tag && TrimSpace(s.learn.query) == q
  {
    var offers := Offers(paths, fs, |fs|);
    var xs := TrimmedOffers(Learns(offers));
    WarnedExactly(Learns(offers));
    var i :| Conflicts(xs, i) && xs[i].query == q;
    Listed(xs, i);
    var c := Lookup(xs, q).value;
    LookupFirst(xs, q, c);
    var j :| FirstWith(xs, q, j) && xs[j].chunk == c;
    assert offers[i] in offers && offers[j] in offers;
    if offers[i].tag && offers[j].tag {
      TagOffersAgree(paths, fs, offers[i], offers[j]);
      assert false;
    }
  }

  /** Every parsed feature file meets the condition on tags. */
  lemma ParsedTagsSolid(path: string, lines: seq<string>)
    ensures AllSolid(Feature(path, lines).tags)
  {}
}
