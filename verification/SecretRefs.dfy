/** Slugs, secret references and the chain that resolves them. */
module SecretRefs {
  import opened GoStrings

  /* ---- slugs ---- */

  predicate IsSlugChar(c: char) {
    'a' <= c <= 'z' || '0' <= c <= '9' || c == '-'
  }

  predicate IsDash(c: char) {
    c == '-'
  }

  predicate IsSlug(s: string) {
    s != "" && (forall i :: 0 <= i < |s| ==> IsSlugChar(s[i])) && s[0] != '-' && s[|s| - 1] != '-'
  }

  /** The separators that become dashes. */
  function Dashed(c: char): char {
    if c == ' ' || c == '_' || c == '.' || c == '/' || c == ':' then '-' else c
  }

  function DashedAll(s: string): (r: string)
    ensures |r| == |s| && forall i :: 0 <= i < |s| ==> r[i] == Dashed(s[i])
  {
    seq(|s|, i requires 0 <= i < |s| => Dashed(s[i]))
  }

  function Kept(s: string): string {
    if s == "" then ""
    else if IsSlugChar(s[|s| - 1]) then Kept(s[..|s| - 1]) + [s[|s| - 1]]
    else Kept(s[..|s| - 1])
  }

  function SafeId(v: string): string {
    var out := Trim(Kept(DashedAll(ToLower(v))), IsDash);
    if out == "" then "discovered-target" else out
  }

  /** safeID with its builder loop. */
  method MakeSafeId(v: string) returns (out: string)
    ensures out == SafeId(v)
  {
    var s := DashedAll(ToLower(v));
    var b := "";
    for i := 0 to |s|
      invariant b == Kept(s[..i])
    {
      assert s[..i + 1][..i] == s[..i];
      if ('a' <= s[i] <= 'z') || ('0' <= s[i] <= '9') || s[i] == '-' {
        b := b + [s[i]];
      }
    }
    assert s[..|s|] == s;
    out := Trim(b, IsDash);
    if out == "" {
      return "discovered-target";
    }
  }

  lemma {:induction false} KeptFacts(s: string)
    ensures forall i :: 0 <= i < |Kept(s)| ==> IsSlugChar(Kept(s)[i])
    ensures (forall i :: 0 <= i < |s| ==> IsSlugChar(s[i])) ==> Kept(s) == s
  {
    if s != "" {
      KeptFacts(s[..|s| - 1]);
    }
  }

  lemma TrimmedKeepsSlugChars(kept: string)
    requires forall i :: 0 <= i < |kept| ==> IsSlugChar(kept[i])
    ensures Trim(kept, IsDash) == "" || IsSlug(Trim(kept, IsDash))
  {
    var lo, hi := TrimSlice(kept, IsDash);
    assert forall i :: 0 <= i < hi - lo ==> kept[lo..hi][i] == kept[lo + i];
  }

  /** Whatever the name, the result is a slug. */
  lemma SafeIdIsSlug(v: string)
    ensures IsSlug(SafeId(v))
  {
    var s := DashedAll(ToLower(v));
    KeptFacts(s);
    TrimmedKeepsSlugChars(Kept(s));
    FallbackIsSlug();
  }

  lemma FallbackIsSlug()
    ensures IsSlug("discovered-target")
  {}

  /** The slugs are the fixed points. */
  lemma SlugsAreFixed(v: string)
    ensures SafeId(v) == v <==> IsSlug(v)
  {
    SafeIdIsSlug(v);
    if IsSlug(v) {
      assert DashedAll(ToLower(v)) == v;
      KeptFacts(v);
      TrimTrimmed(v, IsDash);
    }
  }

  lemma SafeIdIdempotent(v: string)
    ensures SafeId(SafeId(v)) == SafeId(v)
  {
    SafeIdIsSlug(v);
    SlugsAreFixed(SafeId(v));
  }

  lemma {:induction false} KeptConcat(a: string, b: string)
    ensures Kept(a + b) == Kept(a) + Kept(b)
    decreases |b|
  {
    if b == "" {
      assert a + b == a;
    } else {
      var front := b[..|b| - 1];
      assert (a + b)[..|a + b| - 1] == a + front;
      KeptConcat(a, front);
    }
  }

  /** Between two slugs a separator becomes a dash, and anything but a letter, digit or dash is dropped. */
  lemma SafeIdJoins(a: string, c: char, b: string)
    requires IsSlug(a) && IsSlug(b)
    ensures c == ' ' || c == '_' || c == '.' || c == '/' || c == ':' || c == '-' ==> SafeId(a + [c] + b) == a + "-" + b
    ensures !(c == ' ' || c == '_' || c == '.' || c == '/' || c == ':') && !IsSlugChar(Lower(c)) ==> SafeId(a + [c] + b) == a + b
    ensures 'A' <= c <= 'Z' ==> SafeId(a + [c] + b) == a + [Lower(c)] + b
  {
    SafeIdMiddle(a, c, b);
    assert a + "" + b == a + b;
  }

  lemma SafeIdMiddle(a: string, c: char, b: string)
    requires IsSlug(a) && IsSlug(b)
    ensures var m := Dashed(Lower(c)); SafeId(a + [c] + b) == a + (if IsSlugChar(m) then [m] else "") + b
  {
    var m := Dashed(Lower(c));
    Lowered(a, c, b);
    KeptAround(a, m, b);
    SlugsJoined(a, b);
    SafeIdFrom(a + [c] + b, a + [m] + b, a + Kept([m]) + b);
  }

  lemma SafeIdFrom(v: string, s: string, kept: string)
    requires DashedAll(ToLower(v)) == s && Kept(s) == kept && Trimmed(kept, IsDash) && kept != ""
    ensures SafeId(v) == kept
  {
    TrimTrimmed(kept, IsDash);
  }

  lemma Lowered(a: string, c: char, b: string)
    requires IsSlug(a) && IsSlug(b)
    ensures DashedAll(ToLower(a + [c] + b)) == a + [Dashed(Lower(c))] + b
  {
    SlugUnchanged(a);
    SlugUnchanged(b);
    assert forall i :: 0 <= i < |a| ==> Dashed(Lower(a[i])) == DashedAll(ToLower(a))[i];
    assert forall i :: 0 <= i < |b| ==> Dashed(Lower(b[i])) == DashedAll(ToLower(b))[i];
  }

  lemma KeptAround(a: string, m: char, b: string)
    requires IsSlug(a) && IsSlug(b)
    ensures Kept(a + [m] + b) == a + Kept([m]) + b && Kept([m]) == if IsSlugChar(m) then [m] else ""
  {
    KeptConcat(a + [m], b);
    KeptConcat(a, [m]);
    KeptFacts(a);
    KeptFacts(b);
    assert [m][..0] == "" && Kept("") == "";
  }

  lemma SlugsJoined(a: string, b: string)
    requires IsSlug(a) && IsSlug(b)
    ensures forall x :: Trimmed(a + x + b, IsDash) && a + x + b != ""
  {
    forall x ensures Trimmed(a + x + b, IsDash) && a + x + b != "" {
      var s := a + x + b;
      assert s[0] == a[0] && s[|s| - 1] == b[|b| - 1];
    }
  }

  lemma SlugUnchanged(a: string)
    requires IsSlug(a)
    ensures DashedAll(ToLower(a)) == a
  {}

  /** Letter case does not matter. */
  lemma SafeIdFolds(v: string, w: string)
    requires EqualFold(v, w)
    ensures SafeId(v) == SafeId(w)
  {}

  /* ---- keyring references ---- */

  /** A result, one of the three errors after which the chain goes on, or another error. */
  datatype Outcome<+T> = Ok(value: T) | Unsupported | Invalid | NotFound | Hard(reason: string) {
    predicate Decisive() {
      Ok? || Hard?
    }
  }

  datatype Entry = Entry(service: string, account: string)

  const KEYRING_PREFIX := "keychain://"

  function ParseKeyringRef(ref: string): Outcome<Entry> {
    if !HasPrefix(ref, KEYRING_PREFIX) then Unsupported
    else
      var parts := Split(TrimPrefix(ref, KEYRING_PREFIX), '/');
      if |parts| != 2 then Invalid
      else
        var service, account := TrimSpace(parts[0]), TrimSpace(parts[1]);
        if service == "" || account == "" then Invalid else Ok(Entry(service, account))
  }

  /** The references accepted, written out. */
  ghost predicate Spells(ref: string, p: string, q: string) {
    ref == KEYRING_PREFIX + p + "/" + q && '/' !in p && '/' !in q && !IsBlank(p) && !IsBlank(q)
  }

  lemma SplitTwo(p: string, q: string)
    requires '/' !in p && '/' !in q
    ensures Split(p + "/" + q, '/') == [p, q]
  {
    SplitCons(p, '/', q);
  }

  lemma PrefixRest(p: string, rest: string)
    ensures HasPrefix(p + rest, p) && TrimPrefix(p + rest, p) == rest
  {}

  /** A keyring reference is accepted exactly when it has two non-blank segments, and it yields those
      segments trimmed. */
  lemma KeyringRefExact(ref: string, e: Entry)
    ensures ParseKeyringRef(ref) == Ok(e) <==>
              exists p, q :: Spells(ref, p, q) && e == Entry(TrimSpace(p), TrimSpace(q))
  {
    if ParseKeyringRef(ref) == Ok(e) {
      var p, q := AcceptedSpelled(ref, e);
    }
    if p, q :| Spells(ref, p, q) && e == Entry(TrimSpace(p), TrimSpace(q)) {
      SpelledAccepted(ref, p, q);
    }
  }

  lemma AcceptedSpelled(ref: string, e: Entry) returns (p: string, q: string)
    requires ParseKeyringRef(ref) == Ok(e)
    ensures Spells(ref, p, q) && e == Entry(TrimSpace(p), TrimSpace(q))
  {
    var rest := TrimPrefix(ref, KEYRING_PREFIX);
    var parts := Split(rest, '/');
    p, q := parts[0], parts[1];
    assert ref == KEYRING_PREFIX + rest;
    TwoSegments(rest, parts);
    assert KEYRING_PREFIX + (p + "/" + q) == KEYRING_PREFIX + p + "/" + q;
  }

  lemma TwoSegments(rest: string, parts: seq<string>)
    requires parts == Split(rest, '/') && |parts| == 2
    ensures rest == parts[0] + "/" + parts[1] && '/' !in parts[0] && '/' !in parts[1]
  {
    JoinSplit(rest, '/');
    assert parts[1..] == [parts[1]];
    assert parts[0] in parts && parts[1] in parts;
  }

  lemma SpelledAccepted(ref: string, p: string, q: string)
    requires Spells(ref, p, q)
    ensures ParseKeyringRef(ref) == Ok(Entry(TrimSpace(p), TrimSpace(q)))
  {
    assert ref == KEYRING_PREFIX + (p + "/" + q);
    PrefixRest(KEYRING_PREFIX, p + "/" + q);
    SplitTwo(p, q);
  }

  /** The client-secret reference written for a discovered OAuth target. */
  function ScaffoldedRef(name: string): string {
    "keychain://ocd-smoke-alarm/" + SafeId(name) + "/client-secret"
  }

  /** Discovery writes references that resolution refuses, whatever the name. */
  lemma ScaffoldedRefRejected(name: string)
    ensures ParseKeyringRef(ScaffoldedRef(name)) == Invalid
  {
    SafeIdIsSlug(name);
    ThreeSegmentsInvalid("ocd-smoke-alarm", SafeId(name), "client-secret");
    ScaffoldedText(SafeId(name));
  }

  lemma ScaffoldedText(slug: string)
    ensures "keychain://ocd-smoke-alarm/" + slug + "/client-secret"
         == KEYRING_PREFIX + ("ocd-smoke-alarm" + "/" + (slug + "/" + "client-secret"))
  {}

  lemma ThreeSegmentsInvalid(a: string, b: string, c: string)
    requires '/' !in a && '/' !in b && '/' !in c
    ensures ParseKeyringRef(KEYRING_PREFIX + (a + "/" + (b + "/" + c))) == Invalid
  {
    PrefixRest(KEYRING_PREFIX, a + "/" + (b + "/" + c));
    SplitCons(a, '/', b + "/" + c);
    SplitTwo(b, c);
  }

  /* ---- the chain ---- */

  datatype Resolver = Env | File | Keyring

  datatype ReadResult = Contents(text: string) | NotExist | ReadError(reason: string)

  /** The process environment, the file system and the host's keyring. */
  datatype World = World(
    lookupEnv: string -> Option<string>,
    readFile: string -> ReadResult,
    keyring: Entry -> Outcome<string>)

  function Resolve(w: World, r: Resolver, ref: string): Outcome<string> {
    match r
    case Env =>
      if !HasPrefix(ref, "env://") then Unsupported
      else
        var key := TrimPrefix(ref, "env://");
        if key == "" then Invalid
        else
          var v := w.lookupEnv(key);
          if v.None? || v.value == "" then NotFound else Ok(v.value)
    case File =>
      if !HasPrefix(ref, "file://") then Unsupported
      else
        var path := TrimPrefix(ref, "file://");
        if path == "" then Invalid
        else (
          match w.readFile(path)
          case Contents(text) => Ok(TrimSpace(text))
          case NotExist => NotFound
          case ReadError(reason) => Hard(reason)
        )
    case Keyring =>
      var e := ParseKeyringRef(ref);
      match e
      case Ok(entry) => w.keyring(entry)
      case Unsupported => Unsupported
      case Invalid => Invalid
      case NotFound => NotFound
      case Hard(reason) => Hard(reason)
  }

  /** Errors collected on the way are reported together, or "not found" if there were none. */
  datatype Answer = Secret(value: string) | Fails(reason: string) | Exhausted(errors: seq<Outcome<string>>)

  function Verdict(w: World, chain: seq<Resolver>, ref: string): Answer {
    VerdictOf(r => Resolve(w, r, ref), chain)
  }

  /** The verdict of resolvers with the given outcomes, tried in order. */
  function VerdictOf(outcome: Resolver -> Outcome<string>, chain: seq<Resolver>): Answer {
    if chain == [] then Exhausted([])
    else
      var o := outcome(chain[0]);
      if o.Ok? then Secret(o.value)
      else if o.Hard? then Fails(o.reason)
      else
        var rest := VerdictOf(outcome, chain[1..]);
        if rest.Exhausted? then Exhausted([o] + rest.errors) else rest
  }

  /** ChainResolver.Resolve */
  method ResolveChain(w: World, chain: seq<Resolver>, ref: string) returns (a: Answer)
    ensures a == Verdict(w, chain, ref)
  {
    a := TryAll(r => Resolve(w, r, ref), chain);
  }

  /** The answer of the rest of a chain after these errors. */
  function Afterwards(errors: seq<Outcome<string>>, rest: Answer): Answer {
    if rest.Exhausted? then Exhausted(errors + rest.errors) else rest
  }

  lemma OneTried(outcome: Resolver -> Outcome<string>, chain: seq<Resolver>, i: nat, errors: seq<Outcome<string>>)
    requires i < |chain|
    ensures var o := outcome(chain[i]);
            Afterwards(errors, VerdictOf(outcome, chain[i..])) ==
              if o.Decisive() then AsAnswer(o) else Afterwards(errors + [o], VerdictOf(outcome, chain[i + 1..]))
  {
    assert chain[i..][1..] == chain[i + 1..];
    var o, rest := outcome(chain[i]), VerdictOf(outcome, chain[i + 1..]);
    if rest.Exhausted? { assert errors + ([o] + rest.errors) == errors + [o] + rest.errors; }
  }

  method TryAll(outcome: Resolver -> Outcome<string>, chain: seq<Resolver>) returns (a: Answer)
    ensures a == VerdictOf(outcome, chain)
  {
    var errors: seq<Outcome<string>> := [];
    for i := 0 to |chain|
      invariant VerdictOf(outcome, chain) == Afterwards(errors, VerdictOf(outcome, chain[i..]))
    {
      OneTried(outcome, chain, i, errors);
      var o := outcome(chain[i]);
      if o.Ok? {
        return Secret(o.value);
      }
      if o.Unsupported? || o.Invalid? || o.NotFound? {
        errors := errors + [o];
        continue;
      }
      return Fails(o.reason);
    }
    return Exhausted(errors);
  }

  function AsAnswer(o: Outcome<string>): Answer
    requires o.Decisive()
  {
    if o.Ok? then Secret(o.value) else Fails(o.reason)
  }

  /** Each reference is the business of one kind of resolver at most. */
  lemma OneDecides(w: World, ref: string, r1: Resolver, r2: Resolver)
    requires Resolve(w, r1, ref).Decisive() && Resolve(w, r2, ref).Decisive()
    ensures r1 == r2
  {
    assert HasPrefix(ref, "env://") ==> ref[0] == 'e';
    assert HasPrefix(ref, "file://") ==> ref[0] == 'f';
    assert HasPrefix(ref, KEYRING_PREFIX) ==> ref[0] == 'k';
  }

  lemma {:induction false} OneDecisive(outcome: Resolver -> Outcome<string>, chain: seq<Resolver>)
    requires forall r1, r2 :: outcome(r1).Decisive() && outcome(r2).Decisive() ==> r1 == r2
    ensures forall r :: r in chain && outcome(r).Decisive() ==> VerdictOf(outcome, chain) == AsAnswer(outcome(r))
    ensures VerdictOf(outcome, chain).Exhausted? <==> forall r :: r in chain ==> !outcome(r).Decisive()
  {
    if chain != [] {
      OneDecisive(outcome, chain[1..]);
      assert forall r :: r in chain <==> r == chain[0] || r in chain[1..];
    }
  }

  /** The chain answers with its one decisive resolver, wherever that stands, and is exhausted
      exactly when there is none. */
  lemma VerdictIsDecisive(w: World, chain: seq<Resolver>, ref: string)
    ensures forall r :: r in chain && Resolve(w, r, ref).Decisive() ==> Verdict(w, chain, ref) == AsAnswer(Resolve(w, r, ref))
    ensures Verdict(w, chain, ref).Exhausted? <==> forall r :: r in chain ==> !Resolve(w, r, ref).Decisive()
  {
    forall r1, r2 | Resolve(w, r1, ref).Decisive() && Resolve(w, r2, ref).Decisive() ensures r1 == r2 {
      OneDecides(w, ref, r1, r2);
    }
    OneDecisive(r => Resolve(w, r, ref), chain);
  }

  /** Chains over the same resolvers give the same secret, or the same hard error, or are both
      exhausted, in whatever order the resolvers stand. */
  lemma ChainOrderIrrelevant(w: World, a: seq<Resolver>, b: seq<Resolver>, ref: string)
    requires forall r :: r in a <==> r in b
    ensures Verdict(w, a, ref) == Verdict(w, b, ref) || (Verdict(w, a, ref).Exhausted? && Verdict(w, b, ref).Exhausted?)
  {
    VerdictIsDecisive(w, a, ref);
    VerdictIsDecisive(w, b, ref);
    if r :| r in a && Resolve(w, r, ref).Decisive() {
      assert r in b;
    }
  }

  /** What a chain that has the resolver answers to a reference of each scheme. */
  lemma SchemesResolve(w: World, chain: seq<Resolver>, key: string)
    requires key != ""
    ensures Env in chain && w.lookupEnv(key).Some? && w.lookupEnv(key).value != "" ==>
              Verdict(w, chain, "env://" + key) == Secret(w.lookupEnv(key).value)
    ensures (w.lookupEnv(key).None? || w.lookupEnv(key).value == "") ==> Verdict(w, chain, "env://" + key).Exhausted?
    ensures File in chain && w.readFile(key).Contents? ==> Verdict(w, chain, "file://" + key) == Secret(TrimSpace(w.readFile(key).text))
    ensures File in chain && w.readFile(key).ReadError? ==> Verdict(w, chain, "file://" + key) == Fails(w.readFile(key).reason)
    ensures w.readFile(key).NotExist? ==> Verdict(w, chain, "file://" + key).Exhausted?
  {
    EnvOutcome(w, key);
    FileOutcome(w, key);
    VerdictIsDecisive(w, chain, "env://" + key);
    VerdictIsDecisive(w, chain, "file://" + key);
  }

  lemma EnvOutcome(w: World, key: string)
    requires key != ""
    ensures var v := w.lookupEnv(key);
            Resolve(w, Env, "env://" + key) == if v.None? || v.value == "" then NotFound else Ok(v.value)
    ensures Resolve(w, File, "env://" + key) == Unsupported && Resolve(w, Keyring, "env://" + key) == Unsupported
  {
    PrefixRest("env://", key);
    assert ("env://" + key)[0] == 'e' && "file://"[0] == 'f' && KEYRING_PREFIX[0] == 'k';
  }

  lemma FileOutcome(w: World, path: string)
    requires path != ""
    ensures Resolve(w, File, "file://" + path) == match w.readFile(path)
                                                  case Contents(text) => Ok(TrimSpace(text))
                                                  case NotExist => NotFound
                                                  case ReadError(reason) => Hard(reason)
    ensures Resolve(w, Env, "file://" + path) == Unsupported && Resolve(w, Keyring, "file://" + path) == Unsupported
  {
    PrefixRest("file://", path);
    assert ("file://" + path)[0] == 'f' && "env://"[0] == 'e' && KEYRING_PREFIX[0] == 'k';
  }

  /** No chain, no keyring and no environment can resolve a scaffolded reference. */
  lemma ScaffoldedRefUnresolvable(w: World, chain: seq<Resolver>, name: string)
    ensures Verdict(w, chain, ScaffoldedRef(name)).Exhausted?
  {
    var ref := ScaffoldedRef(name);
    ScaffoldedRefRejected(name);
    VerdictIsDecisive(w, chain, ref);
    assert ref[0] == 'k';
    forall r | r in chain ensures !Resolve(w, r, ref).Decisive() {
      assert !HasPrefix(ref, "env://") && !HasPrefix(ref, "file://");
    }
  }
}
