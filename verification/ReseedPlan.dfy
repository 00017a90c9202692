/** The cache reseed plan: which learned query leads to which chunk, built from tagged feature files. */
module ReseedPlan {
  import opened GoStrings

  datatype Learn = Learn(query: string, chunk: string)

  /** The summary line saved for a chunk, and how many inputs of a kind went into the plan. */
  datatype Summary = Summary(chunk: string, text: string)
  datatype InputCount = InputCount(kind: string, count: nat)

  /* ---- the plan as a list ---- */

  /** The plan without its index: what was learned, and the queries warned about. */
  datatype Ledger = Ledger(learns: seq<Learn>, warnings: seq<string>)

  function Lookup(learns: seq<Learn>, query: string): Option<string> {
    if learns == [] then None
    else if learns[0].query == query then Some(learns[0].chunk)
    else Lookup(learns[1..], query)
  }

  /** Offering a query, by searching the list. */
  function Offer(l: Ledger, o: Learn): Ledger {
    var query := TrimSpace(o.query);
    if query == "" then l
    else
      var known := Lookup(l.learns, query);
      if known.None? then l.(learns := l.learns + [Learn(query, o.chunk)])
      else if known.value != o.chunk then l.(warnings := l.warnings + [query])
      else l
  }

  function OfferAll(l: Ledger, offers: seq<Learn>): Ledger {
    if offers == [] then l else Offer(OfferAll(l, offers[..|offers| - 1]), offers[|offers| - 1])
  }

  predicate Wellformed(learns: seq<Learn>) {
    && (forall i, j :: 0 <= i < j < |learns| ==> learns[i].query != learns[j].query)
    && (forall i :: 0 <= i < |learns| ==> learns[i].query != "" && TrimSpace(learns[i].query) == learns[i].query)
  }

  lemma {:induction false} LookupFinds(learns: seq<Learn>, query: string)
    requires forall i, j :: 0 <= i < j < |learns| ==> learns[i].query != learns[j].query
    ensures Lookup(learns, query).None? <==> forall i :: 0 <= i < |learns| ==> learns[i].query != query
    ensures forall i :: 0 <= i < |learns| && learns[i].query == query ==> Lookup(learns, query) == Some(learns[i].chunk)
  {
    if learns != [] {
      var rest := learns[1..];
      assert forall i :: 0 <= i < |rest| ==> rest[i] == learns[i + 1];
      LookupFinds(rest, query);
      assert forall i :: 1 <= i < |learns| ==> learns[i] == rest[i - 1];
    }
  }

  class Plan {
    var learns: seq<Learn>
    var learnIndex: map<string, string>
    var warnings: seq<string>
    var failures: seq<string>
    var summaries: seq<Summary>
    const inputs: seq<InputCount>

    /** The index is the map of the list, and each query is listed once, trimmed and not empty. */
    ghost predicate Valid()
      reads this
    {
      && Wellformed(learns)
      && (forall q :: q in learnIndex <==> Lookup(learns, q).Some?)
      && (forall q :: q in learnIndex ==> Lookup(learns, q) == Some(learnIndex[q]))
    }

    ghost function State(): Ledger
      reads this
    {
      Ledger(learns, warnings)
    }

    constructor (inputs: seq<InputCount>)
      ensures Valid() && State() == Ledger([], []) && failures == [] && summaries == [] && this.inputs == inputs
    {
      learns, learnIndex, warnings, failures, summaries := [], map[], [], [], [];
      this.inputs := inputs;
    }

    /** addLearn does by index what searching the list would do. */
    method AddLearn(query: string, chunk: string)
      requires Valid()
      modifies `learns, `learnIndex, `warnings
      ensures Valid() && State() == Offer(old(State()), Learn(query, chunk))
    {
      var q := TrimSpace(query);
      if q == "" {
        return;
      }
      if q in learnIndex {
        if learnIndex[q] != chunk {
          warnings := warnings + [q];
        }
        return;
      }
      ghost var before := learns;
      learnIndex := learnIndex[q := chunk];
      learns := learns + [Learn(q, chunk)];
      TrimIdempotent(query, IsSpace);
      LookupFinds(before, q);
      forall x ensures Lookup(learns, x) == if x == q then Some(chunk) else Lookup(before, x) {
        LookupSnoc(before, Learn(q, chunk), x);
      }
    }

    method AddFailure(path: string, reason: string)
      modifies `failures
      ensures failures == old(failures) + [path + ": " + reason]
    {
      failures := failures + [path + ": " + reason];
    }

    method AddSummary(chunk: string, text: string)
      modifies `summaries
      ensures summaries == old(summaries) + [Summary(chunk, text)]
    {
      summaries := summaries + [Summary(chunk, text)];
    }
  }

  lemma {:induction false} LookupSnoc(learns: seq<Learn>, l: Learn, query: string)
    ensures Lookup(learns + [l], query) ==
              if Lookup(learns, query).Some? then Lookup(learns, query) else if l.query == query then Some(l.chunk) else None
  {
    if learns == [] {
      assert (learns + [l])[1..] == [];
    } else {
      assert (learns + [l])[1..] == learns[1..] + [l];
      LookupSnoc(learns[1..], l, query);
    }
  }

  /* ---- the first chunk offered wins ---- */

  function TrimmedOffers(offers: seq<Learn>): (r: seq<Learn>)
    ensures |r| == |offers| && forall i :: 0 <= i < |r| ==> r[i] == Learn(TrimSpace(offers[i].query), offers[i].chunk)
  {
    seq(|offers|, i requires 0 <= i < |offers| => Learn(TrimSpace(offers[i].query), offers[i].chunk))
  }

  function Planned(offers: seq<Learn>): Ledger {
    OfferAll(Ledger([], []), offers)
  }

  /** Position `i` is the first with the query. */
  predicate FirstWith(xs: seq<Learn>, query: string, i: int) {
    0 <= i < |xs| && xs[i].query == query && forall j :: 0 <= j < i ==> xs[j].query != query
  }

  /** Searching a list finds the chunk of the first entry with the query. */
  lemma {:induction false} LookupFirst(xs: seq<Learn>, query: string, c: string)
    ensures Lookup(xs, query) == Some(c) <==> exists i :: FirstWith(xs, query, i) && xs[i].chunk == c
  {
    if xs != [] {
      var rest := xs[1..];
      LookupFirst(rest, query, c);
      assert forall i :: 0 <= i < |rest| ==> rest[i] == xs[i + 1];
      if xs[0].query == query {
        assert FirstWith(xs, query, 0);
        assert forall i :: FirstWith(xs, query, i) ==> i == 0;
      } else {
        assert forall i :: FirstWith(rest, query, i) ==> FirstWith(xs, query, i + 1);
        assert forall i :: FirstWith(xs, query, i) ==> FirstWith(rest, query, i - 1);
      }
    }
  }

  lemma TrimmedSnoc(front: seq<Learn>, o: Learn)
    ensures TrimmedOffers(front + [o]) == TrimmedOffers(front) + [Learn(TrimSpace(o.query), o.chunk)]
  {}

  /** The plan lists each non-blank query once, trimmed, with the chunk it was first offered with. */
  lemma {:induction false} FirstOfferWins(offers: seq<Learn>)
    ensures Wellformed(Planned(offers).learns)
    ensures forall q :: Lookup(Planned(offers).learns, q) == if q == "" then None else Lookup(TrimmedOffers(offers), q)
  {
    if offers != [] {
      var front, o := offers[..|offers| - 1], offers[|offers| - 1];
      FirstOfferWins(front);
      assert offers == front + [o];
      OfferKeepsWellformed(Planned(front), o);
      TrimmedSnoc(front, o);
      forall q ensures Lookup(Planned(offers).learns, q) == if q == "" then None else Lookup(TrimmedOffers(offers), q) {
        LookupSnoc(Planned(front).learns, Learn(TrimSpace(o.query), o.chunk), q);
        LookupSnoc(TrimmedOffers(front), Learn(TrimSpace(o.query), o.chunk), q);
      }
    }
  }

  lemma OfferKeepsWellformed(l: Ledger, o: Learn)
    requires Wellformed(l.learns)
    ensures Wellformed(Offer(l, o).learns)
  {
    TrimIdempotent(o.query, IsSpace);
    LookupFinds(l.learns, TrimSpace(o.query));
  }

  /** Offer `i` names another chunk than the one its query was first offered with. */
  predicate Conflicts(xs: seq<Learn>, i: int) {
    0 <= i < |xs| && xs[i].query != "" && Lookup(xs, xs[i].query) != Some(xs[i].chunk)
  }

  /** A query is warned about exactly when some offer for it lost. */
  lemma {:induction false} WarnedExactly(offers: seq<Learn>)
    ensures forall q :: q in Planned(offers).warnings <==>
              exists i :: Conflicts(TrimmedOffers(offers), i) && TrimmedOffers(offers)[i].query == q
  {
    if offers != [] {
      var front, o := offers[..|offers| - 1], offers[|offers| - 1];
      assert offers == front + [o];
      WarnedExactly(front);
      FirstOfferWins(front);
      TrimmedSnoc(front, o);
      ConflictsSnoc(TrimmedOffers(front), Learn(TrimSpace(o.query), o.chunk));
    }
  }

  lemma ConflictsSnoc(xs: seq<Learn>, x: Learn)
    ensures forall i :: 0 <= i < |xs| ==> (Conflicts(xs + [x], i) <==> Conflicts(xs, i)) && (xs + [x])[i] == xs[i]
    ensures Conflicts(xs + [x], |xs|) <==> x.query != "" && Lookup(xs, x.query).Some? && Lookup(xs, x.query) != Some(x.chunk)
    ensures (xs + [x])[|xs|] == x
  {
    LookupSnoc(xs, x, x.query);
    forall i | 0 <= i < |xs| ensures Conflicts(xs + [x], i) <==> Conflicts(xs, i) {
      LookupSnoc(xs, x, xs[i].query);
      Listed(xs, i);
    }
  }

  lemma {:induction false} Listed(xs: seq<Learn>, i: nat)
    requires i < |xs|
    ensures Lookup(xs, xs[i].query).Some?
  {
    if xs[0].query != xs[i].query { Listed(xs[1..], i - 1); }
  }

  /* ---- tags ---- */

  function TagName(tag: string): string {
    TrimPrefix(TrimSpace(tag), "@")
  }

  /** The list carries a tag of this name. */
  predicate Carries(tags: seq<string>, name: string) {
    name != "" && exists t :: 0 <= t < |tags| && TagName(tags[t]) == name
  }

  /** How many lists carry the name. */
  function Carrying(lists: seq<seq<string>>, name: string): nat {
    if lists == [] then 0
    else Carrying(lists[..|lists| - 1], name) + if Carries(lists[|lists| - 1], name) then 1 else 0
  }

  function Count(frequency: map<string, int>, name: string): int {
    if name in frequency then frequency[name] else 0
  }

  /** tagFrequency: a tag repeated within one list counts once. */
  method TagFrequency(lists: seq<seq<string>>) returns (frequency: map<string, int>)
    ensures forall name :: Count(frequency, name) == Carrying(lists, name)
  {
    frequency := map[];
    for i := 0 to |lists|
      invariant forall name :: Count(frequency, name) == Carrying(lists[..i], name)
    {
      assert lists[..i + 1][..i] == lists[..i];
      frequency := CountList(frequency, lists[i]);
    }
    assert lists[..|lists|] == lists;
  }

  method CountList(frequency: map<string, int>, tags: seq<string>) returns (f: map<string, int>)
    ensures forall name :: Count(f, name) == Count(frequency, name) + if Carries(tags, name) then 1 else 0
  {
    f := frequency;
    var seen: set<string> := {};
    for t := 0 to |tags|
      invariant forall name :: name in seen <==> name != "" && exists u :: 0 <= u < t && TagName(tags[u]) == name
      invariant forall name :: Count(f, name) == Count(frequency, name) + if name in seen then 1 else 0
    {
      var name := TagName(tags[t]);
      if name == "" || name in seen {
        continue;
      }
      seen := seen + {name};
      f := f[name := Count(f, name) + 1];
    }
  }

  lemma {:induction false} CarryingNone(lists: seq<seq<string>>, name: string)
    ensures Carrying(lists, name) == 0 <==> forall i :: 0 <= i < |lists| ==> !Carries(lists[i], name)
  {
    if lists != [] { CarryingNone(lists[..|lists| - 1], name); }
  }

  /** A count of one means one list. */
  lemma {:induction false} CarriedOnce(lists: seq<seq<string>>, name: string, i: nat, j: nat)
    requires i < j < |lists| && Carries(lists[i], name) && Carries(lists[j], name)
    ensures Carrying(lists, name) >= 2
  {
    var front := lists[..|lists| - 1];
    if j == |lists| - 1 {
      CarryingNone(front, name);
      assert front[i] == lists[i];
    } else {
      CarriedOnce(front, name, i, j);
    }
  }

  /** The queries a list's tags become: the names no other list carries. */
  function TagQueries(lists: seq<seq<string>>, tags: seq<string>): seq<string> {
    if tags == [] then []
    else
      var front, name := tags[..|tags| - 1], TagName(tags[|tags| - 1]);
      if name == "" || Carrying(lists, name) != 1 then TagQueries(lists, front) else TagQueries(lists, front) + [name]
  }

  lemma {:induction false} TagQueriesFacts(lists: seq<seq<string>>, tags: seq<string>)
    ensures forall q :: q in TagQueries(lists, tags) <==> Carries(tags, q) && Carrying(lists, q) == 1
  {
    if tags != [] {
      var front := tags[..|tags| - 1];
      TagQueriesFacts(lists, front);
      assert forall q :: Carries(tags, q) <==> Carries(front, q) || (q != "" && TagName(tags[|tags| - 1]) == q) by {
        assert forall t :: 0 <= t < |front| ==> front[t] == tags[t];
      }
    }
  }

  /** Tag queries of different lists never coincide. */
  lemma TagQueriesDisjoint(lists: seq<seq<string>>, i: nat, j: nat, q: string)
    requires i < j < |lists| && q in TagQueries(lists, lists[i])
    ensures q !in TagQueries(lists, lists[j])
  {
    TagQueriesFacts(lists, lists[i]);
    TagQueriesFacts(lists, lists[j]);
    if q in TagQueries(lists, lists[j]) { CarriedOnce(lists, q, i, j); }
  }

  /* ---- tags of a class ---- */

  ghost predicate ListsOf(allowed: string -> bool, lists: seq<seq<string>>) {
    forall i, t :: 0 <= i < |lists| && 0 <= t < |lists[i]| ==> allowed(lists[i][t])
  }

  /** Queries of two lists that the plan would trim to the same text. */
  predicate Collide(lists: seq<seq<string>>, i: nat, j: nat, p: string, q: string) {
    i < j < |lists| && p in TagQueries(lists, lists[i]) && q in TagQueries(lists, lists[j]) && TrimSpace(p) == TrimSpace(q)
  }

  /** No lists of allowed tags ever yield such queries. */
  ghost predicate NeverCollide(allowed: string -> bool) {
    forall lists, i, j, p, q :: ListsOf(allowed, lists) ==> !Collide(lists, i, j, p, q)
  }

  predicate Confusable(t: string, u: string) {
    TagName(t) != "" && TagName(u) != "" && TagName(t) != TagName(u) && TrimSpace(TagName(t)) == TrimSpace(TagName(u))
  }

  /** Tags of a class never collide exactly when no two of them have different names that trim alike. */
  lemma NeverCollideExactly(allowed: string -> bool)
    ensures NeverCollide(allowed) <==> forall t, u :: allowed(t) && allowed(u) ==> !Confusable(t, u)
  {
    if t, u :| allowed(t) && allowed(u) && Confusable(t, u) {
      var lists := [[t], [u]];
      ConfusableCollide(t, u);
      assert ListsOf(allowed, lists);
      assert TagName(t) in TagQueries(lists, lists[0]) && TagName(u) in TagQueries(lists, lists[1]);
      assert Collide(lists, 0, 1, TagName(t), TagName(u));
    } else {
      forall lists, i, j, p, q | ListsOf(allowed, lists) ensures !Collide(lists, i, j, p, q) {
        if Collide(lists, i, j, p, q) {
          var t, u := CollidingTags(allowed, lists, i, j, p, q);
        }
      }
    }
  }

  /** Colliding queries come from confusable tags. */
  lemma CollidingTags(allowed: string -> bool, lists: seq<seq<string>>, i: nat, j: nat, p: string, q: string)
    returns (t: string, u: string)
    requires ListsOf(allowed, lists) && Collide(lists, i, j, p, q)
    ensures allowed(t) && allowed(u) && Confusable(t, u)
  {
    TagQueriesFacts(lists, lists[i]);
    TagQueriesFacts(lists, lists[j]);
    var x :| 0 <= x < |lists[i]| && TagName(lists[i][x]) == p;
    var y :| 0 <= y < |lists[j]| && TagName(lists[j][y]) == q;
    TagQueriesDisjoint(lists, i, j, p);
    t, u := lists[i][x], lists[j][y];
  }

  /** Two lists of one tag each, whose names differ, both keep their query. */
  lemma ConfusableCollide(t: string, u: string)
    requires TagName(t) != "" && TagName(u) != "" && TagName(t) != TagName(u)
    ensures var lists := [[t], [u]];
            TagName(t) in TagQueries(lists, lists[0]) && TagName(u) in TagQueries(lists, lists[1])
  {
    var a, b := [t], [u];
    var lists := [a, b];
    assert a[0] == t && b[0] == u;
    assert lists[..1] == [a] && [a][..0] == lists[..0];
    assert Carries(a, TagName(t)) && !Carries(b, TagName(t)) && Carries(b, TagName(u)) && !Carries(a, TagName(u));
    assert Carrying([a], TagName(t)) == 1 && Carrying([a], TagName(u)) == 0;
    TagQueriesFacts(lists, a);
    TagQueriesFacts(lists, b);
  }

  /** A tag as a feature file yields it: no white space anywhere. */
  predicate Solid(s: string) {
    forall i :: 0 <= i < |s| ==> !IsSpace(s[i])
  }

  predicate AllSolid(tags: seq<string>) {
    forall t :: 0 <= t < |tags| ==> Solid(tags[t])
  }

  lemma SolidTagName(tag: string)
    requires Solid(tag)
    ensures TrimSpace(TagName(tag)) == TagName(tag)
  {
    TrimTrimmed(tag, IsSpace);
    assert Solid(TagName(tag));
    TrimTrimmed(TagName(tag), IsSpace);
  }

  /** In feature mode tags are solid, and so no query from tags is ever offered for two features. */
  lemma FeatureTagsNeverCollide()
    ensures NeverCollide(t => Solid(t))
  {
    forall t, u | Solid(t) && Solid(u) ensures !Confusable(t, u) {
      SolidTagName(t);
      SolidTagName(u);
    }
    NeverCollideExactly(t => Solid(t));
  }

  /** Catalogue tags need not be solid, and then they can: "@ smoke" and "@smoke" count as different
      names and are learned as the same query. */
  lemma CatalogTagsCollide(allowed: string -> bool)
    requires allowed("@ smoke") && allowed("@smoke")
    ensures !NeverCollide(allowed)
  {
    SmokeTags();
    NeverCollideExactly(allowed);
  }

  lemma SmokeTags()
    ensures Confusable("@ smoke", "@smoke")
  {
    TrimTrimmed("@ smoke", IsSpace);
    TrimTrimmed("@smoke", IsSpace);
    TrimTrimmed("smoke", IsSpace);
    assert TagName("@ smoke") == " smoke" && TagName("@smoke") == "smoke";
    assert " smoke"[1..] == "smoke";
    assert TrimLeft(" smoke", IsSpace) == TrimLeft("smoke", IsSpace);
  }
}
