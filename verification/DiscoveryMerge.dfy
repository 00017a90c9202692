/** Discover: records from four sources are merged under one key each, and listed by id. */
module DiscoveryMerge {
  import opened GoStrings
  import Config

  /** The parts of a discovered record that merging and ordering look at, and where it came from. */
  datatype Found = Found(id: string, name: string, protocol: string, transport: string, endpoint: string, source: string)

  function DedupeKey(r: Found): string {
    ToLower(r.protocol + "|" + r.transport + "|" + r.endpoint)
  }

  /** Records of pipe-free protocols and transports share a key exactly when they agree on protocol,
      transport and endpoint, up to letter case. */
  lemma SameKeyExactly(a: Found, b: Found)
    requires '|' !in a.protocol && '|' !in a.transport && '|' !in b.protocol && '|' !in b.transport
    ensures DedupeKey(a) == DedupeKey(b) <==>
              EqualFold(a.protocol, b.protocol) && EqualFold(a.transport, b.transport) && EqualFold(a.endpoint, b.endpoint)
  {
    KeyPiped(a);
    KeyPiped(b);
    LowerPipe(a.protocol); LowerPipe(a.transport); LowerPipe(b.protocol); LowerPipe(b.transport);
    if DedupeKey(a) == DedupeKey(b) {
      var x, y := ToLower(a.transport) + "|" + ToLower(a.endpoint), ToLower(b.transport) + "|" + ToLower(b.endpoint);
      HeadUnique(ToLower(a.protocol), x, ToLower(b.protocol), y);
      HeadUnique(ToLower(a.transport), ToLower(a.endpoint), ToLower(b.transport), ToLower(b.endpoint));
    }
  }

  lemma KeyPiped(r: Found)
    ensures DedupeKey(r) == ToLower(r.protocol) + "|" + (ToLower(r.transport) + "|" + ToLower(r.endpoint))
  {
    var rest := r.transport + "|" + r.endpoint;
    assert r.protocol + "|" + r.transport + "|" + r.endpoint == r.protocol + "|" + rest;
    LowerPiped(r.protocol, rest);
    LowerPiped(r.transport, r.endpoint);
  }

  function FromConfig(t: Config.Target): Found {
    Found(t.id, t.name, ToLower(t.protocol), ToLower(t.transport), t.endpoint, "static_config")
  }

  /** The records of the enabled configured targets, in order. */
  function Static(ts: seq<Config.Target>): seq<Found> {
    if ts == [] then []
    else if ts[|ts| - 1].enabled then Static(ts[..|ts| - 1]) + [FromConfig(ts[|ts| - 1])]
    else Static(ts[..|ts| - 1])
  }

  /** Everything the sources offer, in the order they are asked. */
  function Offered(c: Config.Config, env: seq<Found>, proxies: seq<Found>, llms: seq<Found>): seq<Found> {
    Static(c.targets) + if c.discovery.enabled then env + proxies + llms else []
  }

  predicate HasKey(rs: seq<Found>, key: string) {
    exists i :: 0 <= i < |rs| && DedupeKey(rs[i]) == key
  }

  /** The records offered first under their key. */
  function Firsts(rs: seq<Found>): seq<Found> {
    if rs == [] then []
    else
      var front, r := rs[..|rs| - 1], rs[|rs| - 1];
      if HasKey(front, DedupeKey(r)) then Firsts(front) else Firsts(front) + [r]
  }

  predicate DistinctKeys(rs: seq<Found>) {
    forall i, j :: 0 <= i < j < |rs| ==> DedupeKey(rs[i]) != DedupeKey(rs[j])
  }

  /** `rs[i]` is the first record of its key. */
  predicate FirstAt(rs: seq<Found>, i: int) {
    0 <= i < |rs| && forall j :: 0 <= j < i ==> DedupeKey(rs[j]) != DedupeKey(rs[i])
  }

  lemma {:induction false} FirstsFacts(rs: seq<Found>)
    ensures DistinctKeys(Firsts(rs))
    ensures forall key :: HasKey(rs, key) <==> HasKey(Firsts(rs), key)
    ensures forall r :: r in Firsts(rs) <==> exists i :: FirstAt(rs, i) && rs[i] == r
  {
    if rs != [] {
      var front, r := rs[..|rs| - 1], rs[|rs| - 1];
      FirstsFacts(front);
      FirstsKeys(front, r);
      FirstsMembers(front, r);
      assert rs == front + [r];
    }
  }

  lemma FirstsKeys(front: seq<Found>, r: Found)
    requires DistinctKeys(Firsts(front)) && forall key :: HasKey(front, key) <==> HasKey(Firsts(front), key)
    ensures DistinctKeys(Firsts(front + [r]))
    ensures forall key :: HasKey(front + [r], key) <==> HasKey(Firsts(front + [r]), key)
  {
    var rs := front + [r];
    assert rs[..|rs| - 1] == front && rs[|rs| - 1] == r;
    HasKeySnoc(front, r);
    HasKeySnoc(Firsts(front), r);
  }

  lemma HasKeySnoc(rs: seq<Found>, r: Found)
    ensures forall key :: HasKey(rs + [r], key) <==> HasKey(rs, key) || DedupeKey(r) == key
  {
    assert forall i :: 0 <= i < |rs| ==> (rs + [r])[i] == rs[i];
    assert (rs + [r])[|rs|] == r;
  }

  lemma FirstsMembers(front: seq<Found>, r: Found)
    requires forall x :: x in Firsts(front) <==> exists i :: FirstAt(front, i) && front[i] == x
    ensures var rs := front + [r]; forall x :: x in Firsts(rs) <==> exists i :: FirstAt(rs, i) && rs[i] == x
  {
    var rs := front + [r];
    var n := |front|;
    assert rs[..|rs| - 1] == front && rs[n] == r;
    assert forall i :: 0 <= i < n ==> rs[i] == front[i];
    assert forall i :: 0 <= i < n ==> (FirstAt(rs, i) <==> FirstAt(front, i));
    assert FirstAt(rs, n) <==> !HasKey(front, DedupeKey(r));
    forall x ensures x in Firsts(rs) <==> exists i :: FirstAt(rs, i) && rs[i] == x {
      if i :| FirstAt(rs, i) && rs[i] == x {
        if i < n { assert FirstAt(front, i) && front[i] == x; }
      }
      if x in Firsts(front) {
        var i :| FirstAt(front, i) && front[i] == x;
        assert FirstAt(rs, i) && rs[i] == x;
      }
    }
  }

  /* ---- which source wins ---- */

  /** The record is the first of its key in the list. */
  ghost predicate First(rs: seq<Found>, r: Found) {
    exists i :: FirstAt(rs, i) && rs[i] == r
  }

  lemma FirstOfTwo(a: seq<Found>, b: seq<Found>, r: Found)
    ensures First(a + b, r) <==> First(a, r) || (!HasKey(a, DedupeKey(r)) && First(b, r))
  {
    var ab := a + b;
    assert forall i :: 0 <= i < |a| ==> ab[i] == a[i];
    assert forall i :: 0 <= i < |b| ==> ab[|a| + i] == b[i];
    if First(ab, r) {
      var i :| FirstAt(ab, i) && ab[i] == r;
      if i < |a| { assert FirstAt(a, i); } else { assert FirstAt(b, i - |a|); }
    }
    if i :| FirstAt(a, i) && a[i] == r { assert FirstAt(ab, i); }
    if !HasKey(a, DedupeKey(r)) && First(b, r) {
      var i :| FirstAt(b, i) && b[i] == r;
      assert FirstAt(ab, |a| + i);
    }
  }

  lemma HasKeyOfTwo(a: seq<Found>, b: seq<Found>, key: string)
    ensures HasKey(a + b, key) <==> HasKey(a, key) || HasKey(b, key)
  {
    var ab := a + b;
    assert forall i :: 0 <= i < |a| ==> ab[i] == a[i];
    assert forall i :: 0 <= i < |b| ==> ab[|a| + i] == b[i];
  }

  /** Target `i` is enabled and gives the record. */
  predicate Gives(ts: seq<Config.Target>, i: int, r: Found) {
    && 0 <= i < |ts| && ts[i].enabled && r.source == "static_config" && r.id == ts[i].id && r.name == ts[i].name
    && r.endpoint == ts[i].endpoint && r.protocol == ToLower(ts[i].protocol) && r.transport == ToLower(ts[i].transport)
  }

  /** An enabled target of the first `n` has the key. */
  predicate TargetHasKey(ts: seq<Config.Target>, n: int, key: string) {
    exists i :: 0 <= i < n <= |ts| && ts[i].enabled && ToLower(ToLower(ts[i].protocol) + "|" + ToLower(ts[i].transport) + "|" + ts[i].endpoint) == key
  }

  /** The record is that of the first enabled target with its key. */
  ghost predicate FirstTarget(ts: seq<Config.Target>, r: Found) {
    exists i :: Gives(ts, i, r) && !TargetHasKey(ts, i, DedupeKey(r))
  }

  lemma {:induction false} StaticKeys(ts: seq<Config.Target>, key: string)
    ensures HasKey(Static(ts), key) <==> TargetHasKey(ts, |ts|, key)
  {
    if ts != [] {
      var front, t := ts[..|ts| - 1], ts[|ts| - 1];
      StaticKeys(front, key);
      assert forall i :: 0 <= i < |front| ==> front[i] == ts[i];
      HasKeySnoc(Static(front), FromConfig(t));
    }
  }

  lemma {:induction false} StaticFirsts(ts: seq<Config.Target>, r: Found)
    ensures First(Static(ts), r) <==> FirstTarget(ts, r)
  {
    if ts != [] {
      var front, t, n := ts[..|ts| - 1], ts[|ts| - 1], |ts| - 1;
      StaticFirsts(front, r);
      StaticKeys(front, DedupeKey(r));
      assert forall i :: 0 <= i < n ==> front[i] == ts[i];
      assert forall i :: 0 <= i <= n ==> (TargetHasKey(ts, i, DedupeKey(r)) <==> TargetHasKey(front, i, DedupeKey(r)));
      assert forall i :: 0 <= i < n ==> (Gives(ts, i, r) <==> Gives(front, i, r));
      if t.enabled {
        FirstOfTwo(Static(front), [FromConfig(t)], r);
        assert First([FromConfig(t)], r) <==> FromConfig(t) == r by {
          if FromConfig(t) == r { assert FirstAt([FromConfig(t)], 0); }
        }
      }
      assert FirstTarget(ts, r) <==> FirstTarget(front, r) || (Gives(ts, n, r) && !TargetHasKey(ts, n, DedupeKey(r)));
    }
  }

  /** Who supplies the record kept for a key: the first enabled target that has it; failing that, with
      discovery on, the first in the environment, else among the proxies, else in llms.txt. */
  ghost predicate Supplied(c: Config.Config, env: seq<Found>, proxies: seq<Found>, llms: seq<Found>, r: Found) {
    var key := DedupeKey(r);
    if TargetHasKey(c.targets, |c.targets|, key) then FirstTarget(c.targets, r)
    else
      c.discovery.enabled
      && if HasKey(env, key) then First(env, r) else if HasKey(proxies, key) then First(proxies, r) else First(llms, r)
  }

  lemma FirstHasKey(rs: seq<Found>, r: Found)
    requires First(rs, r)
    ensures HasKey(rs, DedupeKey(r))
  {}

  lemma OfferedSupplied(c: Config.Config, env: seq<Found>, proxies: seq<Found>, llms: seq<Found>, r: Found)
    ensures First(Offered(c, env, proxies, llms), r) <==> Supplied(c, env, proxies, llms, r)
  {
    var key := DedupeKey(r);
    var fixed := Static(c.targets);
    StaticKeys(c.targets, key);
    StaticFirsts(c.targets, r);
    if First(fixed, r) { FirstHasKey(fixed, r); }
    if First(env, r) { FirstHasKey(env, r); }
    if First(proxies, r) { FirstHasKey(proxies, r); }
    if c.discovery.enabled {
      FirstOfTwo(fixed, env + proxies + llms, r);
      FirstOfTwo(env + proxies, llms, r);
      FirstOfTwo(env, proxies, r);
      HasKeyOfTwo(env, proxies, key);
    } else {
      assert fixed + [] == fixed;
    }
  }

  /* ---- listing by id ---- */

  /** Go's string order. */
  predicate LessEq(a: string, b: string) {
    a == "" || (b != "" && (a[0] < b[0] || (a[0] == b[0] && LessEq(a[1..], b[1..]))))
  }

  lemma {:induction false} LessEqTotal(a: string, b: string)
    ensures LessEq(a, b) || LessEq(b, a)
    ensures LessEq(a, b) && LessEq(b, a) ==> a == b
  {
    if a != "" && b != "" {
      LessEqTotal(a[1..], b[1..]);
      if LessEq(a, b) && LessEq(b, a) {
        assert a == [a[0]] + a[1..] && b == [b[0]] + b[1..];
      }
    }
  }

  lemma {:induction false} LessEqTransitive(a: string, b: string, c: string)
    requires LessEq(a, b) && LessEq(b, c)
    ensures LessEq(a, c)
  {
    if a != "" && a[0] == b[0] && b[0] == c[0] {
      LessEqTransitive(a[1..], b[1..], c[1..]);
    }
  }

  /** `a` and `b` first differ at `k`, where `a` has the smaller character. */
  predicate SmallerAt(a: string, b: string, k: int) {
    0 <= k < |a| && k < |b| && a[k] < b[k] && forall i :: 0 <= i < k ==> a[i] == b[i]
  }

  /** The order is that of the characters at the first difference, a prefix coming first. */
  lemma {:induction false} LessEqExactly(a: string, b: string)
    ensures LessEq(a, b) <==> a <= b || exists k :: SmallerAt(a, b, k)
  {
    if a != "" && b != "" {
      var x, y := a[1..], b[1..];
      assert a == [a[0]] + x && b == [b[0]] + y;
      if a[0] == b[0] {
        LessEqExactly(x, y);
        assert forall k :: SmallerAt(x, y, k) ==> SmallerAt(a, b, k + 1);
        assert forall k :: SmallerAt(a, b, k) ==> SmallerAt(x, y, k - 1);
      } else {
        assert SmallerAt(a, b, 0) <==> a[0] < b[0];
        assert forall k :: SmallerAt(a, b, k) ==> k == 0;
      }
    }
  }

  predicate ById(rs: seq<Found>) {
    forall i, j :: 0 <= i < j < |rs| ==> LessEq(rs[i].id, rs[j].id)
  }

  /** One insertion into a list ordered by id. */
  method Insert(rs: seq<Found>, r: Found) returns (out: seq<Found>)
    requires ById(rs)
    ensures ById(out) && multiset(out) == multiset(rs) + multiset{r}
  {
    var k := |rs|;
    while k > 0 && !LessEq(rs[k - 1].id, r.id)
      invariant 0 <= k <= |rs|
      invariant forall j :: k <= j < |rs| ==> LessEq(r.id, rs[j].id)
    {
      LessEqTotal(rs[k - 1].id, r.id);
      k := k - 1;
    }
    out := rs[..k] + [r] + rs[k..];
    InsertedById(rs, k, r);
  }

  lemma InsertedById(rs: seq<Found>, k: nat, r: Found)
    requires ById(rs) && k <= |rs| && (k > 0 ==> LessEq(rs[k - 1].id, r.id)) && forall j :: k <= j < |rs| ==> LessEq(r.id, rs[j].id)
    ensures ById(rs[..k] + [r] + rs[k..]) && multiset(rs[..k] + [r] + rs[k..]) == multiset(rs) + multiset{r}
  {
    forall j | 0 <= j < k ensures LessEq(rs[j].id, r.id) {
      if j < k - 1 { LessEqTransitive(rs[j].id, rs[k - 1].id, r.id); }
    }
    InsertedContents(rs, k, r);
    var out := rs[..k] + [r] + rs[k..];
    forall i, j | 0 <= i < j < |out| ensures LessEq(out[i].id, out[j].id) {
      var x, y := if i <= k then i else i - 1, if j <= k then j else j - 1;
      assert (i == k || out[i] == rs[x]) && (j == k || out[j] == rs[y]);
    }
  }

  lemma InsertedContents(rs: seq<Found>, k: nat, r: Found)
    requires k <= |rs|
    ensures var out := rs[..k] + [r] + rs[k..];
            && multiset(out) == multiset(rs) + multiset{r} && |out| == |rs| + 1 && out[k] == r
            && (forall i :: 0 <= i < k ==> out[i] == rs[i]) && (forall i :: k < i < |out| ==> out[i] == rs[i - 1])
  {
    assert rs == rs[..k] + rs[k..];
  }

  /** sort.Slice on the ids promises an ordered permutation and nothing about equal ids. */
  method SortById(rs: seq<Found>) returns (out: seq<Found>)
    ensures ById(out) && multiset(out) == multiset(rs)
  {
    out := [];
    for i := 0 to |rs|
      invariant ById(out) && multiset(out) == multiset(rs[..i])
    {
      assert rs[..i + 1] == rs[..i] + [rs[i]];
      out := Insert(out, rs[i]);
    }
    assert rs[..|rs|] == rs;
  }

  /* ---- merging ---- */

  lemma FirstsSnoc(rs: seq<Found>, r: Found)
    ensures Firsts(rs + [r]) == if HasKey(rs, DedupeKey(r)) then Firsts(rs) else Firsts(rs) + [r]
  {
    assert (rs + [r])[..|rs|] == rs;
  }

  /** The records kept and the keys seen of what has been offered. */
  ghost predicate Merged(offered: seq<Found>, records: seq<Found>, seen: set<string>) {
    records == Firsts(offered) && forall key :: key in seen <==> HasKey(offered, key)
  }

  /** One record, added if its key was not seen before. */
  method MergeOne(records: seq<Found>, seen: set<string>, r: Found, ghost offered: seq<Found>)
    returns (records': seq<Found>, seen': set<string>)
    requires Merged(offered, records, seen)
    ensures Merged(offered + [r], records', seen')
  {
    records', seen' := records, seen;
    HasKeySnoc(offered, r);
    FirstsSnoc(offered, r);
    var key := DedupeKey(r);
    if key in seen {
      return;
    }
    seen' := seen + {key};
    records' := records + [r];
  }

  /** One source's records, added under the keys not seen before. */
  method Merge(records: seq<Found>, seen: set<string>, more: seq<Found>, ghost offered: seq<Found>)
    returns (records': seq<Found>, seen': set<string>)
    requires Merged(offered, records, seen)
    ensures Merged(offered + more, records', seen')
  {
    records', seen' := records, seen;
    ghost var now := offered;
    for i := 0 to |more|
      invariant now == offered + more[..i] && Merged(now, records', seen')
    {
      records', seen' := MergeOne(records', seen', more[i], now);
      now := now + [more[i]];
    }
    assert more[..|more|] == more;
  }

  /** The enabled configured targets, which come first. */
  method MergeStatic(ts: seq<Config.Target>) returns (records: seq<Found>, seen: set<string>)
    ensures Merged(Static(ts), records, seen)
  {
    seen, records := {}, [];
    ghost var now: seq<Found> := [];
    for i := 0 to |ts|
      invariant now == Static(ts[..i]) && Merged(now, records, seen)
    {
      assert ts[..i + 1][..i] == ts[..i];
      if !ts[i].enabled {
        continue;
      }
      records, seen := MergeOne(records, seen, FromConfig(ts[i]), now);
      now := now + [FromConfig(ts[i])];
    }
    assert ts[..|ts|] == ts;
  }

  method Discover(c: Config.Config, env: seq<Found>, proxies: seq<Found>, llms: seq<Found>) returns (records: seq<Found>)
    ensures ById(records) && multiset(records) == multiset(Firsts(Offered(c, env, proxies, llms)))
    ensures DistinctKeys(records)
    ensures forall r :: r in Offered(c, env, proxies, llms) ==> HasKey(records, DedupeKey(r))
    ensures forall r :: r in records <==> Supplied(c, env, proxies, llms, r)
    ensures forall key :: HasKey(records, key) <==> AnyHasKey(c, env, proxies, llms, key)
  {
    var seen;
    records, seen := MergeStatic(c.targets);
    ghost var offered := Static(c.targets);
    if c.discovery.enabled {
      records, seen := Merge(records, seen, env, offered);
      records, seen := Merge(records, seen, proxies, offered + env);
      records, seen := Merge(records, seen, llms, offered + env + proxies);
      assert offered + env + proxies + llms == Offered(c, env, proxies, llms);
    } else {
      assert offered == Offered(c, env, proxies, llms);
    }
    records := SortById(records);
    DiscoverResult(Offered(c, env, proxies, llms), records);
    forall r ensures r in records <==> Supplied(c, env, proxies, llms, r) {
      OfferedSupplied(c, env, proxies, llms, r);
    }
    KeysCovered(c, env, proxies, llms, records);
  }

  /** Some source asked has the key. */
  predicate AnyHasKey(c: Config.Config, env: seq<Found>, proxies: seq<Found>, llms: seq<Found>, key: string) {
    TargetHasKey(c.targets, |c.targets|, key) || (c.discovery.enabled && (HasKey(env, key) || HasKey(proxies, key) || HasKey(llms, key)))
  }

  lemma OfferedKeys(c: Config.Config, env: seq<Found>, proxies: seq<Found>, llms: seq<Found>, key: string)
    ensures HasKey(Offered(c, env, proxies, llms), key) <==> AnyHasKey(c, env, proxies, llms, key)
  {
    StaticKeys(c.targets, key);
    if c.discovery.enabled {
      HasKeyOfTwo(Static(c.targets), env + proxies + llms, key);
      HasKeyOfTwo(env + proxies, llms, key);
      HasKeyOfTwo(env, proxies, key);
    } else {
      assert Static(c.targets) + [] == Static(c.targets);
    }
  }

  lemma KeysCovered(c: Config.Config, env: seq<Found>, proxies: seq<Found>, llms: seq<Found>, records: seq<Found>)
    requires multiset(records) == multiset(Firsts(Offered(c, env, proxies, llms)))
    ensures forall key :: HasKey(records, key) <==> AnyHasKey(c, env, proxies, llms, key)
  {
    var offered := Offered(c, env, proxies, llms);
    FirstsFacts(offered);
    forall key ensures HasKey(records, key) <==> AnyHasKey(c, env, proxies, llms, key) {
      OfferedKeys(c, env, proxies, llms, key);
      SameElementsSameKeys(Firsts(offered), records, key);
    }
  }

  lemma SameElementsSameKeys(a: seq<Found>, b: seq<Found>, key: string)
    requires multiset(a) == multiset(b)
    ensures HasKey(a, key) <==> HasKey(b, key)
  {
    if i :| 0 <= i < |a| && DedupeKey(a[i]) == key {
      assert a[i] in multiset(b);
      assert a[i] in b;
    }
    if i :| 0 <= i < |b| && DedupeKey(b[i]) == key {
      assert b[i] in multiset(a);
      assert b[i] in a;
    }
  }

  /** A service found in the environment and in llms.txt is kept as the environment gave it. */
  lemma EnvironmentFirst(c: Config.Config, e: Found, l: Found)
    requires c.targets == [] && c.discovery.enabled && DedupeKey(e) == DedupeKey(l)
    ensures Firsts(Offered(c, [e], [], [l])) == [e]
  {
    assert Offered(c, [e], [], [l]) == [e] + [l] && [e] == [] + [e];
    FirstsSnoc([e], l);
    FirstsSnoc([], e);
    assert HasKey([e], DedupeKey(l)) by { assert DedupeKey([e][0]) == DedupeKey(l); }
  }

  /** What Discover returns: one record per key, every offered key, and for each key the record of
      the earliest source. */
  lemma DiscoverResult(offered: seq<Found>, records: seq<Found>)
    requires ById(records) && multiset(records) == multiset(Firsts(offered))
    ensures DistinctKeys(records)
    ensures forall r :: r in offered ==> HasKey(records, DedupeKey(r))
    ensures forall r :: r in records <==> exists i :: FirstAt(offered, i) && offered[i] == r
  {
    var firsts := Firsts(offered);
    FirstsFacts(offered);
    assert forall r :: r in records <==> r in multiset(records);
    assert forall r :: r in firsts <==> r in multiset(firsts);
    PermutedKeys(firsts, records);
    forall r | r in offered ensures HasKey(records, DedupeKey(r)) {
      var i :| 0 <= i < |offered| && offered[i] == r;
      assert HasKey(offered, DedupeKey(r));
      var k :| 0 <= k < |firsts| && DedupeKey(firsts[k]) == DedupeKey(r);
      assert firsts[k] in records;
    }
  }

  lemma {:induction false} PermutedKeys(a: seq<Found>, b: seq<Found>)
    requires multiset(a) == multiset(b) && DistinctKeys(a)
    ensures DistinctKeys(b)
  {
    forall i, j | 0 <= i < j < |b| ensures DedupeKey(b[i]) != DedupeKey(b[j]) {
      if DedupeKey(b[i]) == DedupeKey(b[j]) {
        assert b[i] in multiset(a) && b[j] in multiset(a);
        assert b[i] in a && b[j] in a;
        var x :| 0 <= x < |a| && a[x] == b[i];
        var y :| 0 <= y < |a| && a[y] == b[j];
        assert x == y;
        TwiceCounts(b, i, j);
        OnceCounts(a, x);
        assert false;
      }
    }
  }

  lemma TwiceCounts(b: seq<Found>, i: int, j: int)
    requires 0 <= i < j < |b| && b[i] == b[j]
    ensures multiset(b)[b[i]] >= 2
  {
    assert b == b[..i] + [b[i]] + b[i + 1..j] + [b[j]] + b[j + 1..];
  }

  lemma OnceCounts(a: seq<Found>, x: int)
    requires 0 <= x < |a| && forall k :: 0 <= k < |a| && k != x ==> a[k] != a[x]
    ensures multiset(a)[a[x]] == 1
  {
    var l, r := a[..x], a[x + 1..];
    assert a == l + [a[x]] + r;
    assert a[x] !in l && a[x] !in r;
    assert multiset(l)[a[x]] == 0 && multiset(r)[a[x]] == 0;
  }

  lemma SameHead(a: seq<Found>, b: seq<Found>)
    requires a != [] && ById(a) && ById(b) && multiset(a) == multiset(b)
    requires forall i, j :: 0 <= i < j < |a| ==> a[i].id != a[j].id
    ensures b != [] && b[0] == a[0]
  {
    assert a[0] in multiset(b);
    var x :| 0 <= x < |b| && b[x] == a[0];
    assert b[0] in multiset(a);
    var y :| 0 <= y < |a| && a[y] == b[0];
    LessEqTotal(a[0].id, b[0].id);
  }

  lemma SameTails(a: seq<Found>, b: seq<Found>)
    requires a != [] && b != [] && a[0] == b[0] && multiset(a) == multiset(b)
    ensures multiset(a[1..]) == multiset(b[1..])
  {
    assert a == [a[0]] + a[1..] && b == [b[0]] + b[1..];
    assert multiset(a[1..]) == multiset(a) - multiset{a[0]};
    assert multiset(b[1..]) == multiset(b) - multiset{b[0]};
  }

  /** With distinct ids the listing is determined: whatever order sort.Slice gives equal ids, there
      are none. */
  lemma {:induction false} ListingUnique(a: seq<Found>, b: seq<Found>)
    requires ById(a) && ById(b) && multiset(a) == multiset(b)
    requires forall i, j :: 0 <= i < j < |a| ==> a[i].id != a[j].id
    ensures a == b
    decreases |a|
  {
    if a != [] {
      SameHead(a, b);
      SameTails(a, b);
      assert a == [a[0]] + a[1..] && b == [b[0]] + b[1..];
      ListingUnique(a[1..], b[1..]);
    } else {
      assert multiset(b) == multiset{};
    }
  }

  /* ---- when the listing is determined ---- */

  /** A result sort.Slice may give. */
  ghost predicate Listing(xs: seq<Found>, a: seq<Found>) {
    ById(a) && multiset(a) == multiset(xs)
  }

  predicate DistinctRecords(xs: seq<Found>) {
    forall i, j :: 0 <= i < j < |xs| ==> xs[i] != xs[j]
  }

  predicate DistinctIds(xs: seq<Found>) {
    forall i, j :: 0 <= i < j < |xs| ==> xs[i].id != xs[j].id
  }

  lemma PermutedRecords(xs: seq<Found>, a: seq<Found>)
    requires DistinctRecords(xs) && multiset(a) == multiset(xs)
    ensures DistinctRecords(a)
  {
    forall i, j | 0 <= i < j < |a| ensures a[i] != a[j] {
      if a[i] == a[j] {
        TwiceCounts(a, i, j);
        assert a[i] in multiset(xs);
        var x :| 0 <= x < |xs| && xs[x] == a[i];
        OnceCounts(xs, x);
        assert false;
      }
    }
  }

  lemma PermutedIds(xs: seq<Found>, a: seq<Found>)
    requires DistinctIds(xs) && multiset(a) == multiset(xs)
    ensures DistinctIds(a)
  {
    assert DistinctRecords(xs);
    PermutedRecords(xs, a);
    forall i, j | 0 <= i < j < |a| ensures a[i].id != a[j].id {
      assert a[i] in multiset(xs) && a[j] in multiset(xs);
      var x :| 0 <= x < |xs| && xs[x] == a[i];
      var y :| 0 <= y < |xs| && xs[y] == a[j];
      assert a[i] != a[j] && x != y;
    }
  }

  lemma {:induction false} InsertPosition(rs: seq<Found>, r: Found) returns (k: nat)
    requires ById(rs)
    ensures k <= |rs| && (k > 0 ==> LessEq(rs[k - 1].id, r.id)) && forall j :: k <= j < |rs| ==> LessEq(r.id, rs[j].id)
  {
    k := |rs|;
    if rs != [] && !LessEq(rs[|rs| - 1].id, r.id) {
      LessEqTotal(rs[|rs| - 1].id, r.id);
      k := InsertPosition(rs[..|rs| - 1], r);
    }
  }

  lemma {:induction false} SomeListing(xs: seq<Found>) returns (a: seq<Found>)
    ensures Listing(xs, a)
  {
    if xs == [] {
      a := [];
    } else {
      var front, r := xs[..|xs| - 1], xs[|xs| - 1];
      var b := SomeListing(front);
      var k := InsertPosition(b, r);
      InsertedById(b, k, r);
      a := b[..k] + [r] + b[k..];
      assert xs == front + [r];
    }
  }

  /** Neighbours with one id may change places. */
  lemma SwapNeighbours(a: seq<Found>, k: nat) returns (b: seq<Found>)
    requires ById(a) && k + 1 < |a| && a[k].id == a[k + 1].id && a[k] != a[k + 1]
    ensures ById(b) && multiset(b) == multiset(a) && b != a
  {
    b := a[k := a[k + 1]][k + 1 := a[k]];
    assert forall i :: 0 <= i < |a| ==> b[i].id == a[i].id;
    assert b[k] == a[k + 1];
  }

  /** Two records of one id make neighbours of one id. */
  lemma SameIdNeighbours(a: seq<Found>, x: nat, y: nat)
    requires ById(a) && x < y < |a| && a[x].id == a[y].id
    ensures a[x].id == a[x + 1].id
  {
    if x + 1 < y {
      assert LessEq(a[x].id, a[x + 1].id) && LessEq(a[x + 1].id, a[y].id);
      LessEqTotal(a[x].id, a[x + 1].id);
    }
  }

  /** The order of a listing is determined exactly when no two records share an id. */
  lemma ListingUniqueExactly(xs: seq<Found>)
    requires DistinctRecords(xs)
    ensures (forall a, b :: Listing(xs, a) && Listing(xs, b) ==> a == b) <==> DistinctIds(xs)
  {
    if DistinctIds(xs) {
      forall a, b | Listing(xs, a) && Listing(xs, b) ensures a == b {
        PermutedIds(xs, a);
        ListingUnique(a, b);
      }
    } else {
      var i, j :| 0 <= i < j < |xs| && xs[i].id == xs[j].id;
      var a := SomeListing(xs);
      PermutedRecords(xs, a);
      assert xs[i] in multiset(a) && xs[j] in multiset(a);
      var x :| 0 <= x < |a| && a[x] == xs[i];
      var y :| 0 <= y < |a| && a[y] == xs[j];
      assert x != y;
      var k := if x < y then x else y;
      SameIdNeighbours(a, k, if x < y then y else x);
      var b := SwapNeighbours(a, k);
      assert Listing(xs, a) && Listing(xs, b);
    }
  }

  /** Two kept records of one id leave the order open. */
  lemma SharedIdsUndetermined(offered: seq<Found>, f: Found, g: Found)
    requires f in Firsts(offered) && g in Firsts(offered) && f != g && f.id == g.id
    ensures exists a, b :: Listing(Firsts(offered), a) && Listing(Firsts(offered), b) && a != b
  {
    var xs := Firsts(offered);
    var i :| 0 <= i < |xs| && xs[i] == f;
    var j :| 0 <= j < |xs| && xs[j] == g;
    assert i != j && xs[i].id == xs[j].id;
    DiscoverDeterminedExactly(offered);
  }

  /** So what Discover returns is determined exactly when the records it keeps have distinct ids. */
  lemma DiscoverDeterminedExactly(offered: seq<Found>)
    ensures (forall a, b :: Listing(Firsts(offered), a) && Listing(Firsts(offered), b) ==> a == b) <==> DistinctIds(Firsts(offered))
  {
    FirstsFacts(offered);
    assert DistinctRecords(Firsts(offered));
    ListingUniqueExactly(Firsts(offered));
  }
}
