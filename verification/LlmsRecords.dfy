/** Registering the candidates of an llms.txt file as targets. */
module LlmsRecords {
  import opened GoStrings
  import opened SecretRefs
  import opened LlmsTxt
  import Config
  import DiscoveryMerge

  datatype Scaffold = NoAuth | OAuth(tokenUrl: string, callbackId: string, scopes: seq<string>, secretRef: string)

  datatype Registered = Registered(
    id: string, name: string, protocol: string, endpoint: string, transport: string, auth: Scaffold,
    section: string, optional: bool, notes: string)

  /** What is read off URLs elsewhere: the transport an endpoint implies, and a token URL for an
      endpoint in a file. */
  datatype Inference = Inference(transport: string -> string, tokenUrl: (string, string) -> string)

  function InferFromEndpoint(endpoint: string): string {
    var e := ToLower(endpoint);
    if Contains(e, "/acp") then "acp" else if Contains(e, "/mcp") then "mcp" else "http"
  }

  function InferProtocol(c: Candidate): string {
    var text := Text(c.name, c.url, c.notes, c.section);
    if MentionsAcp(text) then "acp"
    else if MentionsMcp(text) then "mcp"
    else InferFromEndpoint(c.url)
  }

  predicate HintsOAuth(c: Candidate) {
    var text := Text(c.name, c.url, c.notes, c.section);
    || Contains(text, "oauth") || Contains(text, "oidc") || Contains(text, "openid")
    || Contains(text, "bearer") || Contains(text, "token") || Contains(text, "auth")
  }

  function DefaultScopes(protocol: string): seq<string> {
    if protocol == "acp" then ["acp.read", "acp.execute"]
    else if protocol == "mcp" then ["mcp.read", "mcp.execute"]
    else ["api.read"]
  }

  function AuthOf(inf: Inference, uri: string, c: Candidate, protocol: string, autoOAuth: bool): Scaffold {
    if !autoOAuth || !HintsOAuth(c) then NoAuth
    else OAuth(inf.tokenUrl(c.url, uri), SafeId(c.name) + "-callback", DefaultScopes(protocol), ScaffoldedRef(c.name))
  }

  function IdText(host: string, i: nat, protocol: string): string {
    "llms-" + host + "-" + (Itoa(i) + ("-" + protocol))
  }

  function RecordOf(inf: Inference, uri: string, host: string, autoOAuth: bool, i: nat, c: Candidate): Registered {
    var protocol := InferProtocol(c);
    Registered(SafeId(IdText(host, i, protocol)),
               if IsBlank(c.name) then "LLMS discovered " + ToUpper(protocol) + " target" else TrimSpace(c.name),
               protocol, c.url, inf.transport(c.url), AuthOf(inf, uri, c, protocol, autoOAuth), c.section, c.optional, c.notes)
  }

  /** The filters of the registering loop let the candidate through. */
  predicate Registrable(c: Candidate) {
    (InferProtocol(c) == "mcp" || InferProtocol(c) == "acp") && !IsBlank(c.url)
  }

  /** Every text of the candidate: name, address, notes and section. */
  predicate Says(c: Candidate, word: string) {
    Contains(ToLower(c.name + " " + c.url + " " + c.notes + " " + c.section), word)
  }

  /** A candidate of the parser speaks ACP exactly when some text of it says so, and MCP otherwise; the
      words for credentials decide about OAuth, and the scopes are the protocol's. */
  lemma ProtocolExactly(inf: Inference, uri: string, host: string, auto: bool, i: nat, c: Candidate)
    requires LooksLikeMcpOrAcp(c.name, c.url, c.notes, c.section)
    ensures var r := RecordOf(inf, uri, host, auto, i, c);
            && (r.protocol == "acp" <==> Says(c, "acp") || Says(c, "agent client protocol"))
            && (r.protocol == "mcp" <==> r.protocol != "acp")
            && (r.auth.OAuth? <==>
                  auto && (Says(c, "oauth") || Says(c, "oidc") || Says(c, "openid") || Says(c, "bearer") || Says(c, "token") || Says(c, "auth")))
            && (r.auth.OAuth? ==> r.auth.scopes == (if r.protocol == "acp" then ["acp.read", "acp.execute"] else ["mcp.read", "mcp.execute"]))
            && r.name == (if IsBlank(c.name) then "LLMS discovered " + ToUpper(r.protocol) + " target" else TrimSpace(c.name))
            && r.endpoint == c.url && r.section == c.section && r.optional == c.optional && r.notes == c.notes
  {
    SpacedText(c.name, c.url, c.notes, c.section);
  }

  /* ---- the registering loop ---- */

  ghost function Registers(inf: Inference, uri: string, host: string, autoOAuth: bool, cs: seq<Candidate>): (nat, Registered) -> bool {
    (i: nat, r: Registered) => i < |cs| && Registrable(cs[i]) && r == RecordOf(inf, uri, host, autoOAuth, i, cs[i])
  }

  ghost function Filtered(cs: seq<Candidate>): nat -> bool {
    (i: nat) => i < |cs| && !Registrable(cs[i])
  }

  method BuildRecords(inf: Inference, uri: string, host: string, autoOAuth: bool, cs: seq<Candidate>)
    returns (records: seq<Registered>, ghost from: seq<nat>)
    ensures Picked(Registers(inf, uri, host, autoOAuth, cs), Filtered(cs), from, records, |cs|)
    ensures (forall k :: 0 <= k < |cs| ==> Registrable(cs[k])) ==>
              |records| == |cs| && forall k :: 0 <= k < |cs| ==> records[k] == RecordOf(inf, uri, host, autoOAuth, k, cs[k])
  {
    records, from := [], [];
    for i := 0 to |cs|
      invariant Picked(Registers(inf, uri, host, autoOAuth, cs), Filtered(cs), from, records, i)
    {
      var r := Register(inf, uri, host, autoOAuth, i, cs[i]);
      RegisterStep(inf, uri, host, autoOAuth, cs, i, r, from, records);
      if r.Some? {
        records := records + [r.value];
        from := from + [i];
      }
    }
    if forall k :: 0 <= k < |cs| ==> Registrable(cs[k]) {
      AllRegistered(inf, uri, host, autoOAuth, cs, from, records);
    }
  }

  lemma AllRegistered(inf: Inference, uri: string, host: string, autoOAuth: bool, cs: seq<Candidate>,
                      from: seq<nat>, records: seq<Registered>)
    requires Picked(Registers(inf, uri, host, autoOAuth, cs), Filtered(cs), from, records, |cs|)
    requires forall k :: 0 <= k < |cs| ==> Registrable(cs[k])
    ensures |records| == |cs| && forall k :: 0 <= k < |cs| ==> records[k] == RecordOf(inf, uri, host, autoOAuth, k, cs[k])
  {
    PickedAll(Registers(inf, uri, host, autoOAuth, cs), Filtered(cs), from, records, |cs|);
    forall k | 0 <= k < |cs| ensures records[k] == RecordOf(inf, uri, host, autoOAuth, k, cs[k]) {
      assert Registers(inf, uri, host, autoOAuth, cs)(from[k], records[k]);
    }
  }

  lemma RegisterStep(inf: Inference, uri: string, host: string, autoOAuth: bool, cs: seq<Candidate>, i: nat, r: Option<Registered>,
                     from: seq<nat>, records: seq<Registered>)
    requires i < |cs| && r == if Registrable(cs[i]) then Some(RecordOf(inf, uri, host, autoOAuth, i, cs[i])) else None
    requires Picked(Registers(inf, uri, host, autoOAuth, cs), Filtered(cs), from, records, i)
    ensures var gives, silent := Registers(inf, uri, host, autoOAuth, cs), Filtered(cs);
            if r.Some? then Picked(gives, silent, from + [i], records + [r.value], i + 1) else Picked(gives, silent, from, records, i + 1)
  {
    if r.Some? {
      PickedSnoc(Registers(inf, uri, host, autoOAuth, cs), Filtered(cs), from, records, i, r.value);
    } else {
      PickedSkip(Registers(inf, uri, host, autoOAuth, cs), Filtered(cs), from, records, i);
    }
  }

  method Register(inf: Inference, uri: string, host: string, autoOAuth: bool, i: nat, c: Candidate) returns (r: Option<Registered>)
    ensures r == if Registrable(c) then Some(RecordOf(inf, uri, host, autoOAuth, i, c)) else None
  {
    var protocol := InferProtocol(c);
    if protocol != "mcp" && protocol != "acp" {
      return None;
    }
    if TrimSpace(c.url) == "" {
      return None;
    }
    var id := MakeSafeId(IdText(host, i, protocol));
    var name := TrimSpace(c.name);
    if name == "" {
      name := "LLMS discovered " + ToUpper(protocol) + " target";
    }
    var auth := AuthOf(inf, uri, c, protocol, autoOAuth);
    return Some(Registered(id, name, protocol, c.url, inf.transport(c.url), auth, c.section, c.optional, c.notes));
  }

  /** If every position gives something, position `k` gives the `k`th item. */
  lemma {:induction false} PickedAll<T>(gives: (nat, T) -> bool, silent: nat -> bool, from: seq<nat>, cs: seq<T>, n: nat)
    requires Picked(gives, silent, from, cs, n) && forall i :: 0 <= i < n ==> !silent(i)
    ensures |cs| == n && forall k :: 0 <= k < n ==> from[k] == k
  {
    if |from| > 0 {
      assert from[0] < n;
    }
    if n > 0 {
      assert n - 1 in from;
      var last := |from| - 1;
      assert forall k :: 0 <= k < last ==> from[k] < from[last] <= n - 1;
      var from', cs' := from[..last], cs[..last];
      forall i | 0 <= i < n - 1 && i !in from' ensures silent(i) {
        assert from == from' + [n - 1];
      }
      PickedAll(gives, silent, from', cs', n - 1);
    }
  }

  /* ---- nothing is dropped ---- */

  /** URL.String writes the scheme first. */
  ghost predicate WritesScheme(resolve: Resolution) {
    forall a, b :: resolve(a, b).Some? && resolve(a, b).value.scheme != "" && resolve(a, b).value.host != "" ==>
      HasPrefix(resolve(a, b).value.text, resolve(a, b).value.scheme)
  }

  lemma ResolvedNotBlank(resolve: Resolution, base: string, link: string)
    requires WritesScheme(resolve) && ResolveLink(resolve, base, link).Some?
    ensures !IsBlank(ResolveLink(resolve, base, link).value)
  {
    var r := resolve(TrimSpace(base), TrimSpace(link)).value;
    assert r.text[0] == r.scheme[0] && (r.scheme[0] == 'h' || r.scheme[0] == 'w');
    StartsVisible(r.text);
  }

  lemma StartsVisible(s: string)
    requires s != "" && !IsSpace(s[0])
    ensures !IsBlank(s)
  {
    var lo, hi := TrimSlice(s, IsSpace);
  }

  /** What one line contributes always passes the registering filters. */
  lemma ContributedIsRegistrable(resolve: Resolution, base: string, line: string, section: string)
    requires WritesScheme(resolve) && ItemOn(resolve, base, line, section).Some?
    ensures Registrable(ItemOn(resolve, base, line, section).value)
  {
    ResolvedNotBlank(resolve, base, TrimSpace(MatchLink(line).value.url));
  }

  lemma CandidatesRegistrable(resolve: Resolution, base: string, lines: seq<string>, from: seq<nat>, cs: seq<Candidate>)
    requires WritesScheme(resolve) && CandidatesOf(resolve, base, lines, from, cs, |lines|)
    ensures forall k :: 0 <= k < |cs| ==> Registrable(cs[k])
  {
    forall k | 0 <= k < |cs| ensures Registrable(cs[k]) {
      assert Gives(resolve, base, lines)(from[k], cs[k]);
      ContributedIsRegistrable(resolve, base, TrimSpace(lines[from[k]]), cs[k].section);
    }
  }

  /** One fetched file with auto-registration on: every candidate becomes exactly one MCP or ACP
      record, in order. */
  method RegisterFile(resolve: Resolution, inf: Inference, uri: string, host: string, autoRegister: bool, autoOAuth: bool, content: string)
    returns (records: seq<Registered>, ghost from: seq<nat>, ghost cs: seq<Candidate>)
    ensures !Overlong(Split(content, '\n')) ==> CandidatesOf(resolve, uri, Split(content, '\n'), from, cs, |Split(content, '\n')|)
    ensures Overlong(Split(content, '\n')) || !autoRegister ==> records == []
    ensures !Overlong(Split(content, '\n')) && autoRegister && WritesScheme(resolve) ==>
              && |records| == |cs|
              && forall k :: 0 <= k < |cs| ==>
                   records[k] == RecordOf(inf, uri, host, autoOAuth, k, cs[k]) && records[k].protocol in ["mcp", "acp"]
  {
    var parsed;
    parsed, from := ParseCandidates(resolve, uri, content);
    if parsed.None? {
      return [], from, [];
    }
    cs := parsed.value;
    if !autoRegister {
      return [], from, cs;
    }
    ghost var kept;
    records, kept := BuildRecords(inf, uri, host, autoOAuth, parsed.value);
    if WritesScheme(resolve) {
      CandidatesRegistrable(resolve, uri, Split(content, '\n'), from, cs);
    }
  }

  /* ---- all files ---- */

  function Flatten(parts: seq<seq<Registered>>): seq<Registered> {
    if parts == [] then [] else Flatten(parts[..|parts| - 1]) + parts[|parts| - 1]
  }

  /** Where files come from, and what registering may do with them. */
  datatype Source = Source(resolve: Resolution, inf: Inference, host: string -> string, fetch: string -> Option<string>,
                           autoRegister: bool, autoOAuth: bool)

  /** A listed address that yields an error: not fetched, or too long a line. */
  predicate Fails(src: Source, uri: string) {
    TrimSpace(uri) != "" && (src.fetch(TrimSpace(uri)).None? || Overlong(Split(src.fetch(TrimSpace(uri)).value, '\n')))
  }

  /** The listed addresses that do, in order. */
  function FailedOf(src: Source, uris: seq<string>): seq<string> {
    if uris == [] then []
    else
      var front, uri := uris[..|uris| - 1], uris[|uris| - 1];
      if Fails(src, uri) then FailedOf(src, front) + [uri] else FailedOf(src, front)
  }

  /** What one listed address contributes: nothing, or one record for each candidate, in order. */
  ghost predicate FileRecords(src: Source, uri: string, rs: seq<Registered>) {
    var u := TrimSpace(uri);
    if u == "" || Fails(src, uri) || !src.autoRegister then rs == []
    else exists from, cs :: FileCandidates(src, u, Split(src.fetch(u).value, '\n'), from, cs, rs)
  }

  ghost predicate FileCandidates(src: Source, u: string, lines: seq<string>, from: seq<nat>, cs: seq<Candidate>, rs: seq<Registered>) {
    && CandidatesOf(src.resolve, u, lines, from, cs, |lines|)
    && |rs| == |cs| && forall k :: 0 <= k < |cs| ==> rs[k] == RecordOf(src.inf, u, src.host(u), src.autoOAuth, k, cs[k])
  }

  method RegisterUri(src: Source, uri: string) returns (rs: seq<Registered>, failed: bool)
    requires WritesScheme(src.resolve)
    ensures FileRecords(src, uri, rs) && (failed <==> Fails(src, uri))
  {
    rs, failed := [], false;
    var u := TrimSpace(uri);
    if u == "" {
      return;
    }
    var content := src.fetch(u);
    if content.None? || Overlong(Split(content.value, '\n')) {
      return [], true;
    }
    ghost var from, cs;
    rs, from, cs := RegisterFile(src.resolve, src.inf, u, src.host(u), src.autoRegister, src.autoOAuth, content.value);
    if src.autoRegister {
      assert FileCandidates(src, u, Split(content.value, '\n'), from, cs, rs);
    }
  }

  ghost predicate Means(yielded: (string, seq<Registered>) -> bool, src: Source) {
    forall uri, rs {:trigger FileRecords(src, uri, rs)} :: yielded(uri, rs) <==> FileRecords(src, uri, rs)
  }

  method GatherUri(src: Source, uri: string, ghost yielded: (string, seq<Registered>) -> bool) returns (rs: seq<Registered>, failed: bool)
    requires WritesScheme(src.resolve) && Means(yielded, src)
    ensures yielded(uri, rs) && (failed <==> Fails(src, uri))
  {
    rs, failed := RegisterUri(src, uri);
  }

  /** The loop over the files. */
  method GatherFiles(src: Source, uris: seq<string>, ghost yielded: (string, seq<Registered>) -> bool)
    returns (records: seq<Registered>, failed: seq<string>, ghost parts: seq<seq<Registered>>)
    requires WritesScheme(src.resolve) && Means(yielded, src)
    ensures |parts| == |uris| && records == Flatten(parts) && failed == FailedOf(src, uris)
    ensures forall k :: 0 <= k < |uris| ==> yielded(uris[k], parts[k])
  {
    records, failed, parts := [], [], [];
    for i := 0 to |uris|
      invariant |parts| == i && records == Flatten(parts) && failed == FailedOf(src, uris[..i])
      invariant forall k :: 0 <= k < i ==> yielded(uris[k], parts[k])
    {
      var rs, bad := GatherUri(src, uris[i], yielded);
      assert uris[..i + 1][..i] == uris[..i];
      if bad {
        failed := failed + [uris[i]];
      }
      assert (parts + [rs])[..i] == parts;
      records := records + rs;
      parts := parts + [rs];
    }
    assert uris[..|uris|] == uris;
  }

  /** discoverFromLLMSTxt: the records of the listed files, file by file, and the files that failed. */
  method DiscoverFromLlmsTxt(src: Source, enabled: bool, uris: seq<string>)
    returns (records: seq<Registered>, failed: seq<string>, ghost parts: seq<seq<Registered>>)
    requires WritesScheme(src.resolve)
    ensures !enabled ==> records == [] && failed == []
    ensures enabled ==> |parts| == |uris| && records == Flatten(parts) && failed == FailedOf(src, uris)
    ensures enabled ==> forall k :: 0 <= k < |uris| ==> FileRecords(src, uris[k], parts[k])
  {
    if !enabled || |uris| == 0 {
      return [], [], [];
    }
    records, failed, parts := GatherFiles(src, uris, (uri, rs) => FileRecords(src, uri, rs));
  }

  /* ---- identities and credentials ---- */

  lemma SlugConcat(a: string, b: string)
    requires forall i :: 0 <= i < |a| ==> IsSlugChar(a[i])
    requires forall i :: 0 <= i < |b| ==> IsSlugChar(b[i])
    ensures forall i :: 0 <= i < |a + b| ==> IsSlugChar((a + b)[i])
  {}

  lemma IdTextIsSlug(host: string, i: nat, protocol: string)
    requires IsSlug(host) && IsSlug(protocol)
    ensures IsSlug(IdText(host, i, protocol))
  {
    SlugConcat("llms-", host);
    SlugConcat("llms-" + host, "-");
    SlugConcat("-", protocol);
    SlugConcat(Itoa(i), "-" + protocol);
    SlugConcat("llms-" + host + "-", Itoa(i) + ("-" + protocol));
    var t := IdText(host, i, protocol);
    assert t[0] == 'l' && t[|t| - 1] == protocol[|protocol| - 1];
  }

  lemma IdTextParts(host: string, i: nat, p: string)
    ensures IdText(host, i, p) == (("llms-" + host) + ("-" + Itoa(i))) + ("-" + p)
  {}

  /** Records have one id exactly when they stand at one position of files on one host, with one
      protocol: always distinct within a file, and shared between two files of a host. */
  lemma IdsSharedExactly(host: string, i: nat, p: string, host': string, j: nat, q: string)
    requires IsSlug(host) && IsSlug(host') && p in ["mcp", "acp"] && q in ["mcp", "acp"]
    ensures SafeId(IdText(host, i, p)) == SafeId(IdText(host', j, q)) <==> host == host' && i == j && p == q
  {
    IdIsText(host, i, p);
    IdIsText(host', j, q);
    if IdText(host, i, p) == IdText(host', j, q) {
      assert '-' !in p && '-' !in q;
      IdTextInjective(host, i, p, host', j, q);
    }
  }

  lemma IdIsText(host: string, i: nat, p: string)
    requires IsSlug(host) && p in ["mcp", "acp"]
    ensures SafeId(IdText(host, i, p)) == IdText(host, i, p)
  {
    IdTextIsSlug(host, i, p);
    SlugsAreFixed(IdText(host, i, p));
  }

  lemma IdTextInjective(host: string, i: nat, p: string, host': string, j: nat, q: string)
    requires '-' !in p && '-' !in q && IdText(host, i, p) == IdText(host', j, q)
    ensures host == host' && i == j && p == q
  {
    IdTextParts(host, i, p);
    IdTextParts(host', j, q);
    TailUnique('-', ("llms-" + host) + ("-" + Itoa(i)), p, ("llms-" + host') + ("-" + Itoa(j)), q);
    TailUnique('-', "llms-" + host, Itoa(i), "llms-" + host', Itoa(j));
    ItoaInjective(i, j);
    assert host == ("llms-" + host)[5..] && host' == ("llms-" + host')[5..];
  }

  /** The records of one file have distinct ids. */
  lemma IdsDistinctPerFile(host: string, i: nat, p: string, j: nat, q: string)
    requires IsSlug(host) && p in ["mcp", "acp"] && q in ["mcp", "acp"]
    ensures SafeId(IdText(host, i, p)) == SafeId(IdText(host, j, q)) <==> i == j && p == q
  {
    IdsSharedExactly(host, i, p, host, j, q);
  }

  /** Two files on one host whose candidates stand at one position and speak one protocol: the records
      share their id, wherever they point. */
  lemma TwoFilesShareId(inf: Inference, uri: string, uri': string, host: string, auto: bool, i: nat, c: Candidate, c': Candidate)
    requires IsSlug(host) && Registrable(c) && Registrable(c')
    ensures RecordOf(inf, uri, host, auto, i, c).id == RecordOf(inf, uri', host, auto, i, c').id
       <==> InferProtocol(c) == InferProtocol(c')
  {
    IdsSharedExactly(host, i, InferProtocol(c), host, i, InferProtocol(c'));
  }

  function AsFound(r: Registered): DiscoveryMerge.Found {
    DiscoveryMerge.Found(r.id, r.name, r.protocol, r.transport, r.endpoint, "llms_txt")
  }

  function AllFound(rs: seq<Registered>): (r: seq<DiscoveryMerge.Found>)
    ensures |r| == |rs| && forall i :: 0 <= i < |rs| ==> r[i] == AsFound(rs[i])
  {
    seq(|rs|, i requires 0 <= i < |rs| => AsFound(rs[i]))
  }

  /** A discovery that finds such records in two files of one host, under two keys, may list them in
      either order. */
  lemma TwoFilesUndetermined(
      cfg: Config.Config, inf: Inference, uri: string, uri': string, host: string, auto: bool, i: nat, c: Candidate, c': Candidate)
    requires cfg.discovery.enabled && cfg.targets == [] && IsSlug(host) && Registrable(c) && Registrable(c')
    requires InferProtocol(c) == InferProtocol(c')
    requires var rs := AllFound([RecordOf(inf, uri, host, auto, i, c), RecordOf(inf, uri', host, auto, i, c')]);
             DiscoveryMerge.DedupeKey(rs[0]) != DiscoveryMerge.DedupeKey(rs[1])
    ensures var rs := AllFound([RecordOf(inf, uri, host, auto, i, c), RecordOf(inf, uri', host, auto, i, c')]);
            var kept := DiscoveryMerge.Firsts(DiscoveryMerge.Offered(cfg, [], [], rs));
            exists a, b :: DiscoveryMerge.Listing(kept, a) && DiscoveryMerge.Listing(kept, b) && a != b
  {
    var rs := AllFound([RecordOf(inf, uri, host, auto, i, c), RecordOf(inf, uri', host, auto, i, c')]);
    TwoFilesShareId(inf, uri, uri', host, auto, i, c, c');
    assert DiscoveryMerge.Offered(cfg, [], [], rs) == rs;
    TwoKept(rs);
    DiscoveryMerge.SharedIdsUndetermined(rs, rs[0], rs[1]);
  }

  lemma TwoKept(rs: seq<DiscoveryMerge.Found>)
    requires |rs| == 2 && DiscoveryMerge.DedupeKey(rs[0]) != DiscoveryMerge.DedupeKey(rs[1])
    ensures rs[0] in DiscoveryMerge.Firsts(rs) && rs[1] in DiscoveryMerge.Firsts(rs)
  {
    DiscoveryMerge.FirstsFacts(rs);
    assert DiscoveryMerge.FirstAt(rs, 0) && DiscoveryMerge.FirstAt(rs, 1);
  }

  /** An OAuth record written by auto-registration names a client secret nothing can resolve. */
  lemma ScaffoldedOAuthUnresolvable(
      inf: Inference, uri: string, host: string, i: nat, c: Candidate, w: World, chain: seq<Resolver>)
    ensures RecordOf(inf, uri, host, true, i, c).auth.OAuth? <==> HintsOAuth(c)
    ensures HintsOAuth(c) ==> Verdict(w, chain, RecordOf(inf, uri, host, true, i, c).auth.secretRef).Exhausted?
  {
    ScaffoldedRefUnresolvable(w, chain, c.name);
  }
}
