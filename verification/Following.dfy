/** How references to moved listeners are followed, for any way of telling which listener a
    reference names.  SelfRefs supplies the real one. */
module Following {
  import opened GoStrings
  import opened HostPort
  import opened Config
  import opened Slices

  /** Configured address to bound address, for the listeners that had to move. */
  type Moves = map<string, string>

  /** `addr` splits a configured or bound address; `same` tells hosts of one machine; `names` is the
      address a reference names, if any; `onPort` is the reference with another port. */
  datatype Addressing = Addressing(
    addr: string -> Option<Addr>,
    same: (string, string) -> bool,
    names: string -> Option<Addr>,
    onPort: (string, string) -> string)

  predicate GoodPort(port: string) {
    port != "" && Digits(port)
  }

  /** What is asked of an addressing: hosts fall into classes, and giving a reference another port
      changes that port and nothing else. */
  ghost predicate Laws(g: Addressing) {
    && (forall a :: g.same(a, a))
    && (forall a, b :: g.same(a, b) ==> g.same(b, a))
    && (forall a, b, c :: g.same(a, b) && g.same(b, c) ==> g.same(a, c))
    && (forall raw, p :: g.names(raw).Some? && GoodPort(p) ==>
          g.names(g.onPort(raw, p)) == Some(Addr(g.names(raw).value.host, p)))
    && (forall raw, p :: g.names(raw).Some? && GoodPort(p) ==> g.onPort(g.onPort(raw, p), p) == g.onPort(raw, p))
  }

  predicate SameAddr(g: Addressing, a: Addr, b: Addr) {
    a.port == b.port && g.same(a.host, b.host)
  }

  /** The reference names the listener configured at `k`. */
  predicate Matches(g: Addressing, raw: string, k: string) {
    g.names(raw).Some? && g.addr(k).Some? && SameAddr(g, g.names(raw).value, g.addr(k).value)
  }

  /** The reference once the listener it names is known to have bound `bound`. */
  function Swap(g: Addressing, raw: string, bound: string): string {
    if g.addr(bound).None? then raw else g.onPort(raw, g.addr(bound).value.port)
  }

  /** One simultaneous substitution: the listener a reference names is looked up once. */
  ghost function Follow(g: Addressing, raw: string, moved: Moves): string {
    if exists k :: k in moved && Matches(g, raw, k)
    then var k :| k in moved && Matches(g, raw, k); Swap(g, raw, moved[k])
    else raw
  }

  predicate Equivalent(g: Addressing, k1: string, k2: string) {
    g.addr(k1).Some? && g.addr(k2).Some? && SameAddr(g, g.addr(k1).value, g.addr(k2).value)
  }

  /** No two moved listeners have equivalent configured addresses. */
  ghost predicate Inequivalent(g: Addressing, moved: Moves) {
    forall k1, k2 :: k1 in moved && k2 in moved && Equivalent(g, k1, k2) ==> k1 == k2
  }

  lemma FollowIsSwap(g: Addressing, raw: string, moved: Moves, k: string)
    requires Laws(g) && Inequivalent(g, moved) && k in moved && Matches(g, raw, k)
    ensures Follow(g, raw, moved) == Swap(g, raw, moved[k])
    ensures forall k' :: k' in moved && Matches(g, raw, k') ==> k' == k
  {
    forall k' | k' in moved && Matches(g, raw, k') ensures k' == k {
      assert Equivalent(g, k, k');
    }
  }

  /* ---- the order of a Go map ---- */

  /** An order in which a range over a map with these keys may visit them. */
  ghost predicate Order(keys: set<string>, order: seq<string>) {
    && (forall k :: k in order <==> k in keys)
    && (forall i, j :: 0 <= i < j < |order| ==> order[i] != order[j])
  }

  /** The rewriting loop, visiting the moved listeners in the given order. */
  function Walk(g: Addressing, raw: string, moved: Moves, order: seq<string>): string
    requires forall k :: k in order ==> k in moved
  {
    if order == [] then raw
    else if Matches(g, raw, order[0]) then Swap(g, raw, moved[order[0]])
    else Walk(g, raw, moved, order[1..])
  }

  lemma {:induction false} WalkOutcome(g: Addressing, raw: string, moved: Moves, order: seq<string>)
    requires forall k :: k in order ==> k in moved
    ensures if forall k :: k in order ==> !Matches(g, raw, k) then Walk(g, raw, moved, order) == raw
            else exists k :: k in order && Matches(g, raw, k) && Walk(g, raw, moved, order) == Swap(g, raw, moved[k])
  {
    if order != [] && !Matches(g, raw, order[0]) {
      WalkOutcome(g, raw, moved, order[1..]);
    }
  }

  lemma {:induction false} OrderOf(keys: set<string>) returns (order: seq<string>)
    ensures Order(keys, order)
    decreases keys
  {
    if keys == {} {
      order := [];
    } else {
      var k :| k in keys;
      var rest := OrderOf(keys - {k});
      order := [k] + rest;
    }
  }

  /** A walk that starts with a matching key ends there. */
  lemma WalkFrom(g: Addressing, raw: string, moved: Moves, k: string) returns (order: seq<string>)
    requires k in moved && Matches(g, raw, k)
    ensures Order(moved.Keys, order) && Walk(g, raw, moved, order) == Swap(g, raw, moved[k])
  {
    var rest := OrderOf(moved.Keys - {k});
    order := [k] + rest;
  }

  /** All listeners the reference might name lead to the same text. */
  ghost predicate Agree(g: Addressing, raw: string, moved: Moves) {
    forall k1, k2 :: k1 in moved && k2 in moved && Matches(g, raw, k1) && Matches(g, raw, k2) ==>
      Swap(g, raw, moved[k1]) == Swap(g, raw, moved[k2])
  }

  /** The visiting order cannot show exactly when they do. */
  lemma OrderIrrelevantExactly(g: Addressing, raw: string, moved: Moves)
    ensures (forall o1, o2 :: Order(moved.Keys, o1) && Order(moved.Keys, o2) ==> Walk(g, raw, moved, o1) == Walk(g, raw, moved, o2))
       <==> Agree(g, raw, moved)
  {
    if Agree(g, raw, moved) {
      forall o1, o2 | Order(moved.Keys, o1) && Order(moved.Keys, o2) ensures Walk(g, raw, moved, o1) == Walk(g, raw, moved, o2) {
        WalkOutcome(g, raw, moved, o1);
        WalkOutcome(g, raw, moved, o2);
      }
    } else {
      var k1, k2 :| k1 in moved && k2 in moved && Matches(g, raw, k1) && Matches(g, raw, k2)
        && Swap(g, raw, moved[k1]) != Swap(g, raw, moved[k2]);
      var o1 := WalkFrom(g, raw, moved, k1);
      var o2 := WalkFrom(g, raw, moved, k2);
    }
  }

  /** With pairwise inequivalent configured addresses every order gives the simultaneous substitution. */
  lemma EveryOrderFollows(g: Addressing, raw: string, moved: Moves, order: seq<string>)
    requires Laws(g) && Inequivalent(g, moved) && Order(moved.Keys, order)
    ensures Walk(g, raw, moved, order) == Follow(g, raw, moved)
  {
    WalkOutcome(g, raw, moved, order);
    if k :| k in moved && Matches(g, raw, k) {
      FollowIsSwap(g, raw, moved, k);
    }
  }

  /* ---- what is changed ---- */

  ghost predicate GoodBounds(g: Addressing, moved: Moves) {
    forall k :: k in moved ==> g.addr(moved[k]).Some? && GoodPort(g.addr(moved[k]).value.port)
  }

  /** A reference that names no moved listener stays exactly as written.  Any other keeps its host and
      gets the port bound by the listener it named before: ports are looked up once, so a chain 8088 to
      8089, 8089 to 8090 is not followed. */
  lemma FollowOnce(g: Addressing, raw: string, moved: Moves)
    requires Laws(g) && GoodBounds(g, moved)
    ensures (forall k :: k in moved ==> !Matches(g, raw, k)) ==> Follow(g, raw, moved) == raw
    ensures (exists k :: k in moved && Matches(g, raw, k)) ==>
              exists k :: k in moved && Matches(g, raw, k)
                && Follow(g, raw, moved) == g.onPort(raw, g.addr(moved[k]).value.port)
                && g.names(Follow(g, raw, moved)) == Some(Addr(g.names(raw).value.host, g.addr(moved[k]).value.port))
  {}

  /* ---- rewriting twice ---- */

  /** Listener `k1` moved onto the configured address of `k2`, which itself moved elsewhere. */
  predicate Chained(g: Addressing, moved: Moves, k1: string, k2: string) {
    && k1 in moved && k2 in moved && g.addr(k1).Some? && g.addr(k2).Some?
    && g.addr(moved[k1]).Some? && g.addr(moved[k2]).Some?
    && SameAddr(g, Addr(g.addr(k1).value.host, g.addr(moved[k1]).value.port), g.addr(k2).value)
    && g.addr(moved[k1]).value.port != g.addr(moved[k2]).value.port
  }

  /** Every moved listener can be referred to. */
  ghost predicate Nameable(g: Addressing, moved: Moves) {
    forall k :: k in moved ==> g.addr(k).Some? && exists raw :: g.names(raw) == g.addr(k)
  }

  lemma FollowTwice(g: Addressing, raw: string, moved: Moves)
    requires Laws(g) && Inequivalent(g, moved) && GoodBounds(g, moved)
    requires forall k1, k2 :: !Chained(g, moved, k1, k2)
    ensures Follow(g, Follow(g, raw, moved), moved) == Follow(g, raw, moved)
  {
    if k1 :| k1 in moved && Matches(g, raw, k1) {
      FollowIsSwap(g, raw, moved, k1);
      var r := Follow(g, raw, moved);
      if k2 :| k2 in moved && Matches(g, r, k2) {
        FollowIsSwap(g, r, moved, k2);
        assert !Chained(g, moved, k1, k2);
      }
    }
  }

  lemma ChainBreaksIdempotence(g: Addressing, moved: Moves, k1: string, k2: string) returns (raw: string)
    requires Laws(g) && Inequivalent(g, moved) && GoodBounds(g, moved) && Nameable(g, moved)
    requires Chained(g, moved, k1, k2)
    ensures Follow(g, Follow(g, raw, moved), moved) != Follow(g, raw, moved)
  {
    raw :| g.names(raw) == g.addr(k1);
    FollowIsSwap(g, raw, moved, k1);
    var r := Follow(g, raw, moved);
    FollowIsSwap(g, r, moved, k2);
  }

  /** Rewriting is idempotent exactly when no listener moved onto an address another one moved away
      from; in particular when no bound port is the port of a moved address. */
  lemma FollowIdempotentExactly(g: Addressing, moved: Moves)
    requires Laws(g) && Inequivalent(g, moved) && GoodBounds(g, moved) && Nameable(g, moved)
    ensures (forall raw :: Follow(g, Follow(g, raw, moved), moved) == Follow(g, raw, moved))
       <==> (forall k1, k2 :: !Chained(g, moved, k1, k2))
  {
    if forall k1, k2 :: !Chained(g, moved, k1, k2) {
      forall raw ensures Follow(g, Follow(g, raw, moved), moved) == Follow(g, raw, moved) {
        FollowTwice(g, raw, moved);
      }
    } else {
      var k1, k2 :| Chained(g, moved, k1, k2);
      var raw := ChainBreaksIdempotence(g, moved, k1, k2);
    }
  }

  /* ---- rewriting in place ---- */

  lemma {:induction false} WalkSkips(g: Addressing, raw: string, moved: Moves, skipped: seq<string>, order: seq<string>)
    requires forall k :: k in skipped + order ==> k in moved
    requires forall k :: k in skipped ==> !Matches(g, raw, k)
    ensures Walk(g, raw, moved, skipped + order) == Walk(g, raw, moved, order)
  {
    if skipped == [] {
      assert skipped + order == order;
    } else {
      assert (skipped + order)[1..] == skipped[1..] + order;
      assert skipped[0] in skipped;
      WalkSkips(g, raw, moved, skipped[1..], order);
    }
  }

  lemma OrderConcat(a: set<string>, x: seq<string>, b: set<string>, y: seq<string>)
    requires Order(a, x) && Order(b, y) && a !! b
    ensures Order(a + b, x + y)
  {
    var z := x + y;
    forall i, j | 0 <= i < j < |z| ensures z[i] != z[j] {
      if i < |x| <= j { assert z[i] in x && z[j] in y; }
    }
  }

  /** rewriteSelfEndpoint.  A range over a map visits its keys in some order, which is not ours to
      choose. */
  method RewriteSelfEndpoint(g: Addressing, raw: string, moved: Moves) returns (r: string)
    ensures exists order :: Order(moved.Keys, order) && r == Walk(g, raw, moved, order)
  {
    var left := moved.Keys;
    ghost var visited: seq<string> := [];
    while left != {}
      invariant left <= moved.Keys && Order(moved.Keys - left, visited)
      invariant forall k :: k in visited ==> !Matches(g, raw, k)
      decreases left
    {
      var configured :| configured in left;
      left := left - {configured};
      if Matches(g, raw, configured) {
        ghost var rest := OrderOf(left);
        ghost var order := visited + ([configured] + rest);
        OrderConcat(moved.Keys - left - {configured}, visited, {configured} + left, [configured] + rest);
        assert moved.Keys - left - {configured} + ({configured} + left) == moved.Keys;
        WalkSkips(g, raw, moved, visited, [configured] + rest);
        var bound := g.addr(moved[configured]);
        if bound.None? {
          return raw;
        }
        return g.onPort(raw, bound.value.port);
      }
      visited := visited + [configured];
    }
    assert visited + [] == visited;
    WalkSkips(g, raw, moved, visited, []);
    return raw;
  }

  /** A target with its four families of references followed, and nothing else changed. */
  ghost function FollowTarget(g: Addressing, t: Target, moved: Moves): Target {
    t.(endpoint := Follow(g, t.endpoint, moved), url := Follow(g, t.url, moved),
       auth := t.auth.(redirectUrl := Follow(g, t.auth.redirectUrl, moved)),
       check := t.check.(hurlTests := FollowTests(g, t.check.hurlTests, moved)))
  }

  ghost function FollowTests(g: Addressing, ts: seq<HurlTest>, moved: Moves): (r: seq<HurlTest>)
    ensures |r| == |ts| && forall i :: 0 <= i < |ts| ==> r[i] == ts[i].(endpoint := Follow(g, ts[i].endpoint, moved))
  {
    seq(|ts|, i requires 0 <= i < |ts| => ts[i].(endpoint := Follow(g, ts[i].endpoint, moved)))
  }

  /** Rewriting reaches the endpoint, the URL, the redirect and every test endpoint, and nothing else. */
  lemma FourFamilies(g: Addressing, t: Target, moved: Moves)
    ensures var r := FollowTarget(g, t, moved);
            && r.endpoint == Follow(g, t.endpoint, moved) && r.url == Follow(g, t.url, moved)
            && r.auth.redirectUrl == Follow(g, t.auth.redirectUrl, moved)
            && |r.check.hurlTests| == |t.check.hurlTests|
            && (forall i :: 0 <= i < |t.check.hurlTests| ==>
                  r.check.hurlTests[i].endpoint == Follow(g, t.check.hurlTests[i].endpoint, moved)
                  && r.check.hurlTests[i].(endpoint := t.check.hurlTests[i].endpoint) == t.check.hurlTests[i])
            && r.(endpoint := t.endpoint, url := t.url, auth := t.auth, check := t.check) == t
            && r.auth.(redirectUrl := t.auth.redirectUrl) == t.auth && r.check.(hurlTests := t.check.hurlTests) == t.check
  {}

  /** Moved listeners whose configured addresses are pairwise inequivalent, under a lawful addressing. */
  ghost predicate Settled(g: Addressing, moved: Moves) {
    Laws(g) && Inequivalent(g, moved)
  }

  method Rewritten(g: Addressing, raw: string, moved: Moves) returns (r: string)
    ensures Settled(g, moved) ==> r == Follow(g, raw, moved)
  {
    r := RewriteSelfEndpoint(g, raw, moved);
    if Settled(g, moved) {
      ghost var order :| Order(moved.Keys, order) && r == Walk(g, raw, moved, order);
      EveryOrderFollows(g, raw, moved, order);
    }
  }

  method RewriteTests(g: Addressing, ts: seq<HurlTest>, moved: Moves) returns (r: seq<HurlTest>)
    ensures Settled(g, moved) ==> r == FollowTests(g, ts, moved)
  {
    r := ts;
    for j := 0 to |ts|
      invariant |r| == |ts| && forall i :: j <= i < |ts| ==> r[i] == ts[i]
      invariant Settled(g, moved) ==> forall i :: 0 <= i < j ==> r[i] == ts[i].(endpoint := Follow(g, ts[i].endpoint, moved))
    {
      var e := Rewritten(g, r[j].endpoint, moved);
      r := r[j := r[j].(endpoint := e)];
    }
  }

  method RewriteTarget(g: Addressing, t: Target, moved: Moves) returns (r: Target)
    ensures Settled(g, moved) ==> r == FollowTarget(g, t, moved)
  {
    var e := Rewritten(g, t.endpoint, moved);
    var u := Rewritten(g, t.url, moved);
    var d := Rewritten(g, t.auth.redirectUrl, moved);
    var ts := RewriteTests(g, t.check.hurlTests, moved);
    r := t.(endpoint := e, url := u, auth := t.auth.(redirectUrl := d), check := t.check.(hurlTests := ts));
  }

  lemma NothingMoved(g: Addressing, t: Target)
    ensures FollowTarget(g, t, map[]) == t
  {
    assert FollowTests(g, t.check.hurlTests, map[]) == t.check.hurlTests;
  }

  lemma NothingMovedAtAll(g: Addressing, ts: seq<Target>, moved: Moves)
    requires |moved| == 0
    ensures MapSeq(ts, t => FollowTarget(g, t, moved)) == ts
  {
    assert moved == map[];
    forall i | 0 <= i < |ts| ensures FollowTarget(g, ts[i], moved) == ts[i] {
      NothingMoved(g, ts[i]);
    }
  }

  /** RewriteSelfReferences on the target list, in place. */
  method RewriteSelfReferences(g: Addressing, targets: array<Target>, moved: Moves)
    modifies targets
    ensures Settled(g, moved) ==> targets[..] == MapSeq(old(targets[..]), t => FollowTarget(g, t, moved))
  {
    if |moved| == 0 {
      NothingMovedAtAll(g, targets[..], moved);
      return;
    }
    RewriteEach(g, targets, moved, t => FollowTarget(g, t, moved));
  }

  /** `follow` does to every target what following does. */
  ghost predicate Follows(follow: Target -> Target, g: Addressing, moved: Moves) {
    forall t {:trigger FollowTarget(g, t, moved)} :: follow(t) == FollowTarget(g, t, moved)
  }

  method RewriteOne(g: Addressing, t: Target, moved: Moves, ghost follow: Target -> Target) returns (r: Target)
    requires Follows(follow, g, moved)
    ensures Settled(g, moved) ==> r == follow(t)
  {
    r := RewriteTarget(g, t, moved);
    assert Settled(g, moved) ==> r == FollowTarget(g, t, moved);
  }

  method RewriteEach(g: Addressing, targets: array<Target>, moved: Moves, ghost follow: Target -> Target)
    requires Follows(follow, g, moved)
    modifies targets
    ensures Settled(g, moved) ==> targets[..] == MapSeq(old(targets[..]), follow)
  {
    for i := 0 to targets.Length
      invariant Settled(g, moved) ==> forall j :: 0 <= j < i ==> targets[j] == follow(old(targets[j]))
      invariant forall j :: i <= j < targets.Length ==> targets[j] == old(targets[j])
    {
      var t := RewriteOne(g, targets[i], moved, follow);
      targets[i] := t;
    }
  }
}
