/** Targets that name one of this process's own listeners follow the port that listener bound. */
module SelfRefs {
  import opened GoStrings
  import opened HostPort
  import opened Url
  import opened Following
  import opened Config
  import opened Slices

  /** The URL an endpoint names, if it names a host at all. */
  function Named(raw: string): Option<Url> {
    Parse(TrimSpace(raw))
  }

  /** The host and port of that URL. */
  function AddressNamed(raw: string): Option<Addr> {
    if Named(raw).Some? then SplitHostPort(Named(raw).value.host) else None
  }

  /** The endpoint with another port. */
  function Repoint(raw: string, port: string): string {
    if Named(raw).None? then raw
    else var u := Named(raw).value; Print(u.(host := JoinHostPort(Hostname(u.host), port)))
  }

  /** How this process addresses its listeners. */
  function Real(): Addressing {
    Addressing(a => SplitHostPort(a), (a, b) => SameHost(a, b), raw => AddressNamed(raw), (raw, port) => Repoint(raw, port))
  }

  /* ---- another port, same URL ---- */

  lemma HostCharacters(h: string)
    requires WellFormedHost(h) && SplitHostPort(h).Some?
    ensures var host := SplitHostPort(h).value.host; HostChars(host) && NoBrackets(host)
  {
    SplitParts(h);
    var host, port := SplitHostPort(h).value.host, SplitHostPort(h).value.port;
    if h[0] == '[' {
      BracketedHostChars(host, port);
    } else {
      assert h == "" + host + (":" + port);
      HostCharsInside("", host, ":" + port);
    }
  }

  lemma BracketedHostChars(host: string, port: string)
    requires HostChars("[" + host + "]" + ":" + port)
    ensures HostChars(host)
  {
    assert "[" + host + "]" + ":" + port == "[" + host + ("]" + ":" + port);
    HostCharsInside("[", host, "]" + ":" + port);
  }

  lemma HostCharsInside(a: string, b: string, c: string)
    requires HostChars(a + b + c)
    ensures HostChars(b)
  {
    var s := a + b + c;
    assert forall i :: 0 <= i < |b| ==> b[i] == s[|a| + i];
  }

  lemma HostCharsConcat(a: string, b: string)
    requires HostChars(a) && HostChars(b)
    ensures HostChars(a + b)
  {}

  lemma JoinedHostChars(host: string, port: string)
    requires HostChars(host) && HostChars(port)
    ensures HostChars(JoinHostPort(host, port))
  {
    HostCharsConcat(":", port);
    HostCharsConcat("[", host);
    HostCharsConcat("[" + host, "]:" );
    HostCharsConcat("[" + host + "]:", port);
    HostCharsConcat(host, ":");
    HostCharsConcat(host + ":", port);
  }

  lemma DigitsAreHostChars(port: string)
    requires Digits(port)
    ensures HostChars(port)
  {}

  lemma JoinedHostWellFormed(host: string, port: string)
    requires HostChars(host) && NoBrackets(host) && Digits(port)
    ensures WellFormedHost(JoinHostPort(host, port))
  {
    JoinValidUrlHost(host, port);
    DigitsAreHostChars(port);
    JoinedHostChars(host, port);
  }

  lemma JoinEndsInPort(host: string, port: string)
    requires port != ""
    ensures JoinHostPort(host, port) != "" && JoinHostPort(host, port)[|JoinHostPort(host, port)| - 1] == port[|port| - 1]
  {}

  lemma PrintTrimmed(u: Url)
    requires u.scheme == "" || IsLetter(u.scheme[0])
    requires u.host != "" && !IsSpace(u.host[|u.host| - 1])
    requires u.rest != "" ==> !IsSpace(u.rest[|u.rest| - 1])
    ensures TrimSpace(Print(u)) == Print(u)
  {
    var s := Print(u);
    assert s[0] == if u.scheme == "" then '/' else u.scheme[0];
    assert s[|s| - 1] == if u.rest == "" then u.host[|u.host| - 1] else u.rest[|u.rest| - 1];
    TrimTrimmed(s, IsSpace);
  }

  /** Giving a parsed URL another port: the result prints trimmed and parses back. */
  lemma OtherPort(u: Url, a: Addr, port: string)
    requires WellFormed(u) && SplitHostPort(u.host) == Some(a) && port != "" && Digits(port)
    requires u.rest != "" ==> !IsSpace(u.rest[|u.rest| - 1])
    ensures var v := u.(host := JoinHostPort(a.host, port));
            && Hostname(u.host) == a.host && WellFormed(v) && SplitHostPort(v.host) == Some(Addr(a.host, port))
            && TrimSpace(Print(v)) == Print(v) && Parse(Print(v)) == Some(v)
  {
    var v := u.(host := JoinHostPort(a.host, port));
    HostnameIsSplitHost(u.host);
    HostCharacters(u.host);
    JoinedHostWellFormed(a.host, port);
    JoinEndsInPort(a.host, port);
    assert NoBrackets(port) && ':' !in port && !IsSpace(port[|port| - 1]);
    SplitUndoesJoin(a.host, port);
    ParsePrint(v);
    PrintTrimmed(v);
  }

  lemma NamedFacts(raw: string)
    requires Named(raw).Some?
    ensures var u := Named(raw).value; WellFormed(u) && (u.rest != "" ==> !IsSpace(u.rest[|u.rest| - 1]))
  {
    ParseWellFormed(TrimSpace(raw));
    TrimSpaceTrimmed(raw);
    ParseKeepsEnd(TrimSpace(raw));
  }

  lemma TrimSpaceTrimmed(raw: string)
    ensures Trimmed(TrimSpace(raw), IsSpace)
  {
    var lo, hi := TrimSlice(raw, IsSpace);
  }

  /** Repointing keeps scheme, user, host and path, sets the port, and yields a trimmed text that
      names the new address. */
  lemma RepointNames(raw: string, port: string)
    requires AddressNamed(raw).Some? && GoodPort(port)
    ensures var a := AddressNamed(raw).value;
            && Named(Repoint(raw, port)) == Some(Named(raw).value.(host := JoinHostPort(a.host, port)))
            && AddressNamed(Repoint(raw, port)) == Some(Addr(a.host, port))
            && Repoint(raw, port) == Print(Named(raw).value.(host := JoinHostPort(a.host, port)))
  {
    NamedFacts(raw);
    OtherPort(Named(raw).value, AddressNamed(raw).value, port);
  }

  lemma RepointTwice(raw: string, port: string)
    requires AddressNamed(raw).Some? && GoodPort(port)
    ensures Repoint(Repoint(raw, port), port) == Repoint(raw, port)
  {
    RepointNames(raw, port);
    RepointNames(Repoint(raw, port), port);
  }

  /** The real addressing obeys the laws, so everything proved of an addressing holds of it. */
  lemma RealLaws()
    ensures Laws(Real())
  {
    var g := Real();
    forall a, b, c
      ensures g.same(a, a) && (g.same(a, b) ==> g.same(b, a)) && (g.same(a, b) && g.same(b, c) ==> g.same(a, c))
    {
      SameHostEquivalence(a, b, c);
    }
    forall raw, p | g.names(raw).Some? && GoodPort(p)
      ensures g.names(g.onPort(raw, p)) == Some(Addr(g.names(raw).value.host, p)) && g.onPort(g.onPort(raw, p), p) == g.onPort(raw, p)
    {
      RepointNames(raw, p);
      RepointTwice(raw, p);
    }
  }

  /** What the laws leave open: which endpoints name a listener, and what swapping does to them. */
  lemma RealMeaning(raw: string, k: string, bound: string)
    ensures Matches(Real(), raw, k) <==> Named(raw).Some? && SameListenerAddr(Named(raw).value.host, k)
    ensures Swap(Real(), raw, bound) == if SplitHostPort(bound).None? then raw else Repoint(raw, SplitHostPort(bound).value.port)
    ensures Equivalent(Real(), k, bound) <==> SameListenerAddr(k, bound)
  {}

  /** A plain URL of a configured address. */
  function Plain(k: string, rest: string): Url {
    Url("http", None, k, rest)
  }

  lemma PlainText(k: string, rest: string)
    ensures Print(Plain(k, rest)) == "http://" + k + rest
    ensures IsScheme("http") && ToLower("http") == "http"
  {}

  lemma PlainEndpoint(k: string, rest: string)
    requires WellFormedHost(k) && !IsSpace(k[|k| - 1])
    requires Printable(rest) && (rest != "" ==> EndsAuthority(rest[0]) && !IsSpace(rest[|rest| - 1]))
    ensures Named("http://" + k + rest) == Some(Plain(k, rest))
  {
    PlainText(k, rest);
    ParsePrint(Plain(k, rest));
    PrintTrimmed(Plain(k, rest));
  }

  lemma PortEndsHost(k: string)
    requires ValidUrlHost(k) && SplitHostPort(k).Some?
    ensures k != "" && !IsSpace(k[|k| - 1])
  {
    HostnameIsSplitHost(k);
    SplitParts(k);
    var host, port := SplitHostPort(k).value.host, SplitHostPort(k).value.port;
    EndsInDigits(if k[0] == '[' then "[" + host + "]" else host, port);
  }

  lemma EndsInDigits(front: string, port: string)
    requires Digits(port)
    ensures var k := front + ":" + port; k != "" && !IsSpace(k[|k| - 1])
  {
    var k := front + ":" + port;
    assert k[|k| - 1] == if port == "" then ':' else port[|port| - 1];
  }

  /** Listeners whose configured addresses could stand in a URL can all be referred to. */
  lemma RealNameable(moved: Moves)
    requires forall k :: k in moved ==> WellFormedHost(k) && SplitHostPort(k).Some?
    ensures Nameable(Real(), moved)
  {
    forall k | k in moved ensures exists raw :: Real().names(raw) == Real().addr(k) {
      var raw := NameOf(k);
    }
  }

  lemma NameOf(k: string) returns (raw: string)
    requires WellFormedHost(k) && SplitHostPort(k).Some?
    ensures AddressNamed(raw) == SplitHostPort(k) && Real().names(raw) == Real().addr(k)
  {
    raw := "http://" + k + "";
    PortEndsHost(k);
    PlainEndpoint(k, "");
  }

  /* ---- the self-check target ---- */

  /** One listener of this process: where it was configured, and where it bound if it did. */
  datatype Claim = Claim(configured: string, bound: Option<string>)

  /** What one claim adds to the moved listeners. */
  function Record(moved: Moves, c: Claim): Moves {
    if c.bound.Some? && c.bound.value != c.configured then moved[c.configured := c.bound.value] else moved
  }

  class ListenerClaims {
    var moved: Moves

    constructor ()
      ensures moved == map[]
    {
      moved := map[];
    }

    method Claim(c: Claim) returns (ok: bool)
      modifies this
      ensures ok <==> c.bound.Some?
      ensures moved == Record(old(moved), c)
    {
      if c.bound.None? { return false; }
      if c.bound.value != c.configured {
        moved := moved[c.configured := c.bound.value];
      }
      return true;
    }
  }

  /** The moved listeners after a sequence of claims. */
  function MovesOf(claims: seq<Claim>): Moves {
    if claims == [] then map[] else Record(MovesOf(claims[..|claims| - 1]), claims[|claims| - 1])
  }

  ghost predicate DistinctListeners(claims: seq<Claim>) {
    forall i, j :: 0 <= i < j < |claims| ==>
      claims[i].configured != claims[j].configured && !Equivalent(Real(), claims[i].configured, claims[j].configured)
  }

  /** With distinct configured addresses each moved listener is recorded under its own. */
  lemma {:induction false} MovesOfDistinct(claims: seq<Claim>)
    requires DistinctListeners(claims)
    ensures forall k :: k in MovesOf(claims) <==>
              exists i :: 0 <= i < |claims| && claims[i].configured == k && claims[i].bound.Some? && claims[i].bound.value != k
    ensures forall i :: 0 <= i < |claims| && claims[i].configured in MovesOf(claims) ==>
              claims[i].bound == Some(MovesOf(claims)[claims[i].configured])
  {
    if claims != [] {
      var front, c := claims[..|claims| - 1], claims[|claims| - 1];
      assert DistinctListeners(front);
      MovesOfDistinct(front);
      forall k | k in MovesOf(claims)
        ensures exists i :: 0 <= i < |claims| && claims[i].configured == k && claims[i].bound.Some? && claims[i].bound.value != k
      {
        if k in MovesOf(front) {
          var i :| 0 <= i < |front| && front[i].configured == k && front[i].bound.Some? && front[i].bound.value != k;
          assert claims[i] == front[i];
        } else {
          assert claims[|claims| - 1] == c;
        }
      }
    }
  }

  lemma MovesInequivalent(claims: seq<Claim>)
    requires DistinctListeners(claims)
    ensures Inequivalent(Real(), MovesOf(claims))
  {
    MovesOfDistinct(claims);
    var moved := MovesOf(claims);
    forall k1, k2 | k1 in moved && k2 in moved && Equivalent(Real(), k1, k2) ensures k1 == k2 {
      var i :| 0 <= i < |claims| && claims[i].configured == k1;
      var j :| 0 <= j < |claims| && claims[j].configured == k2;
      RealMeaning("", k1, k2);
      RealMeaning("", k2, k1);
      SameListenerEquivalence(k1, k2, k2);
    }
  }

  /** The target that probes this process's own status route. */
  function SelfCheckTarget(h: Health): Target {
    Target("self-health-check", true, "http", "Self Health Check", "http://" + h.listenAddr + h.status, "http",
           Expected([], 0), TargetAuth("", "", "", "", "", "", "", "", []), Stdio("", [], map[], ""),
           CheckPolicy("30s", "5s", 3, "", [], []), "", "", [], map[], None)
  }

  function WithSelfCheckTarget(c: Config): Config {
    if !c.health.enabled || !c.health.selfCheck then c else c.(targets := c.targets + [SelfCheckTarget(c.health)])
  }

  /** White space after a status route does not reach the parsed URL. */
  lemma StatusEndpoint(k: string, route: string)
    requires WellFormedHost(k) && SplitHostPort(k).Some? && "/" <= route && Printable(TrimRight(route, IsSpace))
    ensures Named("http://" + k + route) == Some(Plain(k, TrimRight(route, IsSpace)))
  {
    var kept, blanks := RouteTail(route);
    KeptEndpoint(k, kept, blanks);
  }

  lemma KeptEndpoint(k: string, kept: string, blanks: string)
    requires WellFormedHost(k) && SplitHostPort(k).Some?
    requires kept != "" && kept[0] == '/' && !IsSpace(kept[|kept| - 1]) && Printable(kept)
    requires forall i :: 0 <= i < |blanks| ==> IsSpace(blanks[i])
    ensures Named("http://" + k + (kept + blanks)) == Some(Plain(k, kept))
  {
    PortEndsHost(k);
    PlainEndpoint(k, kept);
    NamedTail("http://" + k, kept, blanks);
  }

  lemma RouteTail(route: string) returns (kept: string, blanks: string)
    requires "/" <= route
    ensures kept == TrimRight(route, IsSpace) && route == kept + blanks
    ensures kept != "" && kept[0] == '/' && !IsSpace(kept[|kept| - 1]) && forall i :: 0 <= i < |blanks| ==> IsSpace(blanks[i])
  {
    var n := TrimRightKeep(route, IsSpace);
    kept, blanks := route[..n], route[n..];
    assert route[0] == '/' && !IsSpace('/');
    assert kept[0] == '/';
  }

  lemma NamedTail(front: string, kept: string, blanks: string)
    requires front != "" && !IsSpace(front[0]) && kept != "" && !IsSpace(kept[|kept| - 1])
    requires forall i :: 0 <= i < |blanks| ==> IsSpace(blanks[i])
    ensures Named(front + (kept + blanks)) == Named(front + kept)
  {
    TrimTail(front + kept, blanks);
    assert front + (kept + blanks) == front + kept + blanks;
  }

  lemma {:induction false} TrimTail(text: string, blanks: string)
    requires text != "" && Trimmed(text, IsSpace) && forall i :: 0 <= i < |blanks| ==> IsSpace(blanks[i])
    ensures TrimSpace(text + blanks) == text && TrimSpace(text) == text
    decreases |blanks|
  {
    TrimTrimmed(text, IsSpace);
    if blanks == "" {
      assert text + blanks == text;
    } else {
      var front := blanks[..|blanks| - 1];
      TrimTail(text, front);
      assert (text + blanks)[..|text + blanks| - 1] == text + front;
    }
  }

  /** Wherever the listeners ended up, the self-check target names the port the health listener
      bound, on the host it was configured with. */
  lemma SelfCheckFollowsHealth(c: Config, health: Claim, others: seq<Claim>)
    requires c.health.enabled && c.health.selfCheck && health.configured == c.health.listenAddr
    requires WellFormedHost(health.configured) && SplitHostPort(health.configured).Some?
    requires "/" <= c.health.status && Printable(TrimRight(c.health.status, IsSpace))
    requires health.bound.Some? && SplitHostPort(health.bound.value).Some? && GoodPort(SplitHostPort(health.bound.value).value.port)
    requires DistinctListeners([health] + others)
    ensures var targets := WithSelfCheckTarget(c).targets;
            && |targets| == |c.targets| + 1
            && AddressNamed(Follow(Real(), targets[|c.targets|].endpoint, MovesOf([health] + others)))
               == Some(Addr(SplitHostPort(health.configured).value.host, SplitHostPort(health.bound.value).value.port))
  {
    var claims, k := [health] + others, health.configured;
    var raw := "http://" + k + c.health.status;
    StatusEndpoint(k, c.health.status);
    RealLaws();
    MovesOfDistinct(claims);
    MovesInequivalent(claims);
    assert claims[0] == health;
    SelfCheckStep(claims, raw);
  }

  /** An endpoint on the first listener's own address follows that listener. */
  lemma SelfCheckStep(claims: seq<Claim>, raw: string)
    requires |claims| > 0 && DistinctListeners(claims)
    requires SplitHostPort(claims[0].configured).Some? && Named(raw).Some? && Named(raw).value.host == claims[0].configured
    requires claims[0].bound.Some? && SplitHostPort(claims[0].bound.value).Some? && GoodPort(SplitHostPort(claims[0].bound.value).value.port)
    ensures AddressNamed(Follow(Real(), raw, MovesOf(claims)))
         == Some(Addr(SplitHostPort(claims[0].configured).value.host, SplitHostPort(claims[0].bound.value).value.port))
  {
    var k, bound, moved := claims[0].configured, claims[0].bound.value, MovesOf(claims);
    RealLaws();
    MovesOfDistinct(claims);
    MovesInequivalent(claims);
    SameListenerEquivalence(k, k, k);
    RealMeaning(raw, k, bound);
    if k in moved {
      FollowIsSwap(Real(), raw, moved, k);
      RepointNames(raw, SplitHostPort(bound).value.port);
    } else {
      forall k' | k' in moved ensures !Matches(Real(), raw, k') {
        var j :| 0 <= j < |claims| && claims[j].configured == k';
        RealMeaning(raw, k', bound);
        RealMeaning(raw, k, k');
      }
    }
  }

  method ClaimAll(claims: seq<Claim>) returns (moved: Moves)
    ensures moved == MovesOf(claims)
  {
    var record := new ListenerClaims();
    for i := 0 to |claims|
      invariant record.moved == MovesOf(claims[..i])
    {
      assert claims[..i + 1][..i] == claims[..i];
      var _ := record.Claim(claims[i]);
    }
    assert claims[..|claims|] == claims;
    return record.moved;
  }

  /** Binding and rewriting as at start-up: a health listener that cannot bind is fatal, another
      listener that cannot bind is only not recorded. */
  method BindAndRewrite(c: Config, health: Option<Claim>, others: seq<Claim>) returns (r: Option<array<Target>>)
    ensures r.None? <==> health.Some? && health.value.bound.None?
    ensures r.Some? ==>
              var claims := (if health.Some? then [health.value] else []) + others;
              DistinctListeners(claims) ==>
                r.value[..] == MapSeq(WithSelfCheckTarget(c).targets, t => FollowTarget(Real(), t, MovesOf(claims)))
  {
    var claims := (if health.Some? then [health.value] else []) + others;
    if health.Some? && health.value.bound.None? {
      return None;
    }
    var moved := ClaimAll(claims);
    var listed := WithSelfCheckTarget(c).targets;
    var targets := new Target[|listed|](i requires 0 <= i < |listed| => listed[i]);
    assert targets[..] == listed;
    if DistinctListeners(claims) {
      RealLaws();
      MovesInequivalent(claims);
    }
    RewriteSelfReferences(Real(), targets, moved);
    r := Some(targets);
  }

  /* ---- the names of this machine ---- */

  lemma LocalAddress(h: string, port: string)
    requires LocalName(h) && GoodPort(port)
    ensures WellFormedHost(JoinHostPort(h, port)) && SplitHostPort(JoinHostPort(h, port)) == Some(Addr(h, port))
  {
    LocalNames(h);
    LocalNameChars(h);
    JoinedHostWellFormed(h, port);
    assert NoBrackets(port) && ':' !in port;
    SplitUndoesJoin(h, port);
  }

  lemma LocalNameChars(h: string)
    requires LocalName(h)
    ensures HostChars(h)
  {}

  /** Whatever name of this machine a reference uses, and whatever name the listener was configured
      with, the reference follows the listener to the port it bound, and keeps its name. */
  lemma LocalReferenceFollows(h: string, k: string, port: string, bound: string, route: string)
    requires LocalName(h) && LocalName(k) && GoodPort(port) && SplitHostPort(bound).Some? && GoodPort(SplitHostPort(bound).value.port)
    requires "/" <= route && Printable(TrimRight(route, IsSpace))
    ensures var raw := "http://" + JoinHostPort(h, port) + route;
            AddressNamed(Follow(Real(), raw, map[JoinHostPort(k, port) := bound])) == Some(Addr(h, SplitHostPort(bound).value.port))
  {
    var raw, key := "http://" + JoinHostPort(h, port) + route, JoinHostPort(k, port);
    LocalAddress(h, port);
    LocalAddress(k, port);
    StatusEndpoint(JoinHostPort(h, port), route);
    assert NoBrackets(port) && ':' !in port;
    LocalListenersSame(h, k, port);
    OneListenerFollows(raw, key, bound);
  }

  lemma OneListenerFollows(raw: string, key: string, bound: string)
    requires Named(raw).Some? && SameListenerAddr(Named(raw).value.host, key)
    requires SplitHostPort(bound).Some? && GoodPort(SplitHostPort(bound).value.port)
    ensures AddressNamed(Follow(Real(), raw, map[key := bound]))
         == Some(Addr(AddressNamed(raw).value.host, SplitHostPort(bound).value.port))
  {
    RealLaws();
    RealMeaning(raw, key, bound);
    var moved: Moves := map[key := bound];
    assert Inequivalent(Real(), moved);
    FollowIsSwap(Real(), raw, moved, key);
    RepointNames(raw, SplitHostPort(bound).value.port);
  }
}
