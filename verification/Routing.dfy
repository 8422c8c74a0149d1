/** The egress proxy's route table: names computed alike on both sides, one route per name, and
    paths that lead back to the route they were made from. */
module Routing {
  import opened Basics

  // ---- Route names -----------------------------------------------------------------------------

  predicate Safe(c: char) {
    'a' <= c <= 'z' || '0' <= c <= '9'
  }

  /** Every run of other characters becomes one dash. */
  function Collapse(s: string): string {
    if s == [] then []
    else
      var front, c := Collapse(s[..|s| - 1]), s[|s| - 1];
      if Safe(c) then front + [c]
      else if front != [] && front[|front| - 1] == '-' then front
      else front + ['-']
  }

  function StripLeft(s: string): string {
    if s != [] && s[0] == '-' then StripLeft(s[1..]) else s
  }

  function StripRight(s: string, c: char): string {
    if s != [] && s[|s| - 1] == c then StripRight(s[..|s| - 1], c) else s
  }

  /** None: nothing is left of the name. `lower` is Python's `str.lower`. */
  function RouteName(lower: string -> string, provider: string, slug: string): Option<string> {
    var name := StripRight(StripLeft(Collapse(lower(provider + "-" + slug))), '-');
    if name == "" then None else Some(name)
  }

  /** Lower-case letters, digits and single inner dashes. */
  ghost predicate UrlSafe(name: string) {
    && name != "" && Safe(name[0]) && Safe(name[|name| - 1])
    && (forall i :: 0 <= i < |name| ==> Safe(name[i]) || name[i] == '-')
    && forall i :: 0 <= i < |name| - 1 ==> Safe(name[i]) || Safe(name[i + 1])
  }

  ghost predicate Dashed(s: string) {
    && (forall i :: 0 <= i < |s| ==> Safe(s[i]) || s[i] == '-')
    && forall i :: 0 <= i < |s| - 1 ==> Safe(s[i]) || Safe(s[i + 1])
  }

  lemma {:induction false} CollapseIsDashed(s: string)
    ensures Dashed(Collapse(s))
  {
    if s != [] { CollapseIsDashed(s[..|s| - 1]); }
  }

  lemma {:induction false} StripLeftStarts(s: string)
    requires Dashed(s)
    ensures Dashed(StripLeft(s)) && (StripLeft(s) != [] ==> StripLeft(s)[0] != '-')
  {
    if s != [] && s[0] == '-' { StripLeftStarts(s[1..]); }
  }

  lemma {:induction false} StripRightEnds(s: string)
    requires Dashed(s) && (s != [] ==> s[0] != '-')
    ensures Dashed(StripRight(s, '-')) && (StripRight(s, '-') != [] ==> StripRight(s, '-')[0] != '-')
    ensures StripRight(s, '-') != [] ==> StripRight(s, '-')[|StripRight(s, '-')| - 1] != '-'
  {
    if s != [] && s[|s| - 1] == '-' { StripRightEnds(s[..|s| - 1]); }
  }

  /** Whatever providers and slugs contain, a route name can stand in a URL path as one segment. */
  lemma NamesAreUrlSafe(lower: string -> string, provider: string, slug: string)
    requires RouteName(lower, provider, slug).Some?
    ensures UrlSafe(RouteName(lower, provider, slug).value) && '/' !in RouteName(lower, provider, slug).value
  {
    var s := Collapse(lower(provider + "-" + slug));
    CollapseIsDashed(lower(provider + "-" + slug));
    StripLeftStarts(s);
    StripRightEnds(StripLeft(s));
    assert !Safe('/');
  }

  /** The maximal runs of letters and digits. */
  function Words(s: string): seq<string> {
    if s == [] then []
    else
      var n := |s| - 1;
      var words := Words(s[..n]);
      if !Safe(s[n]) then words
      else if n == 0 || !Safe(s[n - 1]) || words == [] then words + [[s[n]]]
      else words[..|words| - 1] + [words[|words| - 1] + [s[n]]]
  }

  function JoinDash(words: seq<string>): string {
    if words == [] then ""
    else if |words| == 1 then words[0]
    else JoinDash(words[..|words| - 1]) + "-" + words[|words| - 1]
  }

  lemma JoinMore(words: seq<string>, w: string)
    ensures JoinDash(words + [w]) == if words == [] then w else JoinDash(words) + "-" + w
  {
    assert (words + [w])[..|words|] == words;
  }

  function Dash(yes: bool): string {
    if yes then "-" else ""
  }

  predicate Leads(s: string) {
    s != [] && !Safe(s[0])
  }

  /** The words joined by dashes, character by character. */
  function Squeezed(s: string): string {
    if s == [] then []
    else
      var n := |s| - 1;
      var front := Squeezed(s[..n]);
      if !Safe(s[n]) then front
      else if front != [] && !Safe(s[n - 1]) then front + "-" + [s[n]]
      else front + [s[n]]
  }

  predicate Trails(s: string) {
    s != [] && !Safe(s[|s| - 1]) && Squeezed(s) != []
  }

  ghost predicate IsSqueezed(s: string) {
    Collapse(s) == Dash(Leads(s)) + (Squeezed(s) + Dash(Trails(s)))
  }

  lemma {:induction false} SqueezedEnds(s: string)
    ensures Squeezed(s) != [] ==> Safe(Squeezed(s)[0]) && Safe(Squeezed(s)[|Squeezed(s)| - 1])
    ensures Squeezed(s) == [] ==> forall i :: 0 <= i < |s| ==> !Safe(s[i])
  {
    if s != [] { SqueezedEnds(s[..|s| - 1]); }
  }

  lemma {:induction false} CollapseIsSqueezed(s: string)
    ensures IsSqueezed(s)
  {
    if s != [] {
      CollapseIsSqueezed(s[..|s| - 1]);
      SqueezedEnds(s[..|s| - 1]);
    }
  }

  lemma {:induction false} NoWords(s: string)
    ensures Words(s) == [] <==> Squeezed(s) == []
  {
    if s != [] { NoWords(s[..|s| - 1]); }
  }

  lemma {:induction false} SqueezedIsJoined(s: string)
    ensures Squeezed(s) == JoinDash(Words(s))
  {
    if s != [] {
      var n := |s| - 1;
      var words := Words(s[..n]);
      SqueezedIsJoined(s[..n]);
      NoWords(s[..n]);
      if Safe(s[n]) {
        if words == [] || !Safe(s[n - 1]) {
          assert Words(s) == words + [[s[n]]];
          JoinMore(words, [s[n]]);
        } else {
          var front, last := words[..|words| - 1], words[|words| - 1];
          assert words == front + [last] && Words(s) == front + [last + [s[n]]];
          JoinMore(front, last);
          JoinMore(front, last + [s[n]]);
        }
      }
    }
  }

  lemma StripsLeft(lead: bool, s: string)
    requires s == "" || s[0] != '-'
    ensures StripLeft(Dash(lead) + s) == s
  {
    assert StripLeft(s) == s;
    assert (Dash(lead) + s)[|Dash(lead)|..] == s;
  }

  lemma StripsRight(name: string, trail: bool)
    requires name == "" || name[|name| - 1] != '-'
    ensures StripRight(name + Dash(trail), '-') == name
  {
    assert StripRight(name, '-') == name;
    assert (name + Dash(trail))[..|name|] == name;
  }

  lemma StripsDashes(lead: bool, name: string, trail: bool)
    requires name != "" ==> Safe(name[0]) && Safe(name[|name| - 1])
    requires name == "" ==> !trail
    ensures StripRight(StripLeft(Dash(lead) + (name + Dash(trail))), '-') == name
  {
    StripsLeft(lead, name + Dash(trail));
    StripsRight(name, trail);
  }

  /** A route name is the words of the lower-cased provider and slug, joined by single dashes; there
      is none exactly when there are no words. */
  lemma RouteNameIsJoinedWords(lower: string -> string, provider: string, slug: string)
    ensures var words := Words(lower(provider + "-" + slug));
            RouteName(lower, provider, slug) == if words == [] then None else Some(JoinDash(words))
  {
    var s := lower(provider + "-" + slug);
    CollapseIsSqueezed(s);
    SqueezedIsJoined(s);
    SqueezedEnds(s);
    NoWords(s);
    StripsDashes(Leads(s), Squeezed(s), Trails(s));
  }

  // ---- The table ----------------------------------------------------------------------------------

  datatype Url = Url(scheme: string, hostname: string)  // "" when there is no host

  /** What the table is built with: the naming of (provider, slug) pairs, and `urlparse` (None when
      it raises). */
  datatype Host = Host(naming: (string, string) -> Option<string>, parse: string -> Option<Url>)

  function Naming(lower: string -> string): (string, string) -> Option<string> {
    (provider, slug) => RouteName(lower, provider, slug)
  }

  datatype ChainEntry = ChainEntry(provider: string, slug: string, baseUrl: string, apiKeyEnv: string)

  datatype Route = Route(name: string, provider: string, upstream: string, apiKeyEnv: string)

  /** What the message of a name collision says is different. */
  datatype Blame = Upstreams | ApiKeyEnvs

  datatype Problem = EmptyName | BadUrl | NotHttps | Conflict(blame: Blame)

  datatype Build = Built(routes: map<string, Route>) | Refused(problem: Problem)

  const LOCAL_HOSTS := {"localhost", "127.0.0.1", "0.0.0.0"}

  predicate AcceptedUpstream(u: Url) {
    (u.scheme == "https" && u.hostname != "") || (u.scheme == "http" && u.hostname in LOCAL_HOSTS)
  }

  function RouteFor(name: string, e: ChainEntry): Route {
    Route(name, e.provider, StripRight(e.baseUrl, '/'), e.apiKeyEnv)
  }

  function BlameFor(existing: Route, candidate: Route): Blame {
    if existing.upstream != candidate.upstream then Upstreams else ApiKeyEnvs
  }

  function AddEntry(host: Host, routes: map<string, Route>, e: ChainEntry): Build {
    var name := host.naming(e.provider, e.slug);
    if name.None? then Refused(EmptyName)
    else if host.parse(e.baseUrl).None? then Refused(BadUrl)
    else if !AcceptedUpstream(host.parse(e.baseUrl).value) then Refused(NotHttps)
    else
      var candidate := RouteFor(name.value, e);
      if name.value in routes && routes[name.value] != candidate
      then Refused(Conflict(BlameFor(routes[name.value], candidate)))
      else Built(routes[name.value := candidate])
  }

  function TableOf(host: Host, entries: seq<ChainEntry>): Build {
    if entries == [] then Built(map[])
    else
      var before := TableOf(host, entries[..|entries| - 1]);
      if before.Refused? then before else AddEntry(host, before.routes, entries[|entries| - 1])
  }

  method BuildRouteTable(host: Host, entries: seq<ChainEntry>) returns (r: Build)
    ensures r == TableOf(host, entries)
  {
    var routes := map[];
    for i := 0 to |entries|
      invariant TableOf(host, entries[..i]) == Built(routes)
    {
      var e := entries[i];
      assert entries[..i + 1][..i] == entries[..i];
      var name := host.naming(e.provider, e.slug);
      if name.None? {
        RefusedStays(host, entries, i + 1);
        return Refused(EmptyName);
      }
      var parsed := host.parse(e.baseUrl);
      if parsed.None? {
        RefusedStays(host, entries, i + 1);
        return Refused(BadUrl);
      }
      if !AcceptedUpstream(parsed.value) {
        RefusedStays(host, entries, i + 1);
        return Refused(NotHttps);
      }
      var candidate := RouteFor(name.value, e);
      if name.value in routes && routes[name.value] != candidate {
        RefusedStays(host, entries, i + 1);
        return Refused(Conflict(BlameFor(routes[name.value], candidate)));
      }
      routes := routes[name.value := candidate];
    }
    assert entries[..|entries|] == entries;
    r := Built(routes);
  }

  lemma {:induction false} RefusedStays(host: Host, entries: seq<ChainEntry>, n: nat)
    requires n <= |entries| && TableOf(host, entries[..n]).Refused?
    ensures TableOf(host, entries) == TableOf(host, entries[..n])
    decreases |entries| - n
  {
    if n == |entries| {
      assert entries[..n] == entries;
    } else {
      assert entries[..n + 1][..n] == entries[..n];
      RefusedStays(host, entries, n + 1);
    }
  }

  // ---- What the table is --------------------------------------------------------------------------------

  /** The entry has a name and an upstream that may carry a key. */
  ghost predicate Usable(host: Host, e: ChainEntry) {
    && host.naming(e.provider, e.slug).Some?
    && host.parse(e.baseUrl).Some? && AcceptedUpstream(host.parse(e.baseUrl).value)
  }

  ghost function RouteOf(host: Host, e: ChainEntry): Route
    requires Usable(host, e)
  {
    RouteFor(host.naming(e.provider, e.slug).value, e)
  }

  /** All entries are usable, and entries that share a name say the same. */
  ghost predicate Consistent(host: Host, entries: seq<ChainEntry>) {
    && (forall e :: e in entries ==> Usable(host, e))
    && forall e, f :: e in entries && f in entries && RouteOf(host, e).name == RouteOf(host, f).name
         ==> RouteOf(host, e) == RouteOf(host, f)
  }

  /** The names that occur, with repetitions collapsed. */
  ghost function NamesOf(host: Host, entries: seq<ChainEntry>): set<string> {
    if entries == [] then {}
    else
      var name := host.naming(entries[|entries| - 1].provider, entries[|entries| - 1].slug);
      NamesOf(host, entries[..|entries| - 1]) + if name.Some? then {name.value} else {}
  }

  lemma {:induction false} NameHasOwner(host: Host, entries: seq<ChainEntry>, n: string) returns (e: ChainEntry)
    requires n in NamesOf(host, entries)
    ensures e in entries && host.naming(e.provider, e.slug) == Some(n)
  {
    var last := entries[|entries| - 1];
    if host.naming(last.provider, last.slug) == Some(n) {
      e := last;
    } else {
      e := NameHasOwner(host, entries[..|entries| - 1], n);
    }
  }

  /** The table maps each entry's name to its route, and nothing else. */
  ghost predicate Represents(host: Host, entries: seq<ChainEntry>, routes: map<string, Route>) {
    && routes.Keys == NamesOf(host, entries)
    && (forall e :: e in entries ==> Usable(host, e))
    && forall e :: e in entries ==> RouteOf(host, e).name in routes && routes[RouteOf(host, e).name] == RouteOf(host, e)
  }

  lemma AddRepresents(host: Host, before: seq<ChainEntry>, routes: map<string, Route>, last: ChainEntry)
    requires Represents(host, before, routes) && AddEntry(host, routes, last).Built?
    ensures Represents(host, before + [last], AddEntry(host, routes, last).routes)
  {
    var entries, more, route := before + [last], AddEntry(host, routes, last).routes, RouteOf(host, last);
    assert more == routes[route.name := route];
    assert route.name in routes ==> routes[route.name] == route;
    assert entries[..|before|] == before;
    forall e | e in entries
      ensures Usable(host, e)
      ensures RouteOf(host, e).name in more && more[RouteOf(host, e).name] == RouteOf(host, e)
    {
      if e != last { assert e in before; }
    }
  }

  lemma {:induction false} BuiltRepresents(host: Host, entries: seq<ChainEntry>)
    ensures TableOf(host, entries).Built? ==> Represents(host, entries, TableOf(host, entries).routes)
  {
    if entries != [] && TableOf(host, entries).Built? {
      var n := |entries| - 1;
      BuiltRepresents(host, entries[..n]);
      AddRepresents(host, entries[..n], TableOf(host, entries[..n]).routes, entries[n]);
      assert entries == entries[..n] + [entries[n]];
    }
  }

  lemma {:induction false} ConsistentIsBuilt(host: Host, entries: seq<ChainEntry>)
    requires Consistent(host, entries)
    ensures TableOf(host, entries).Built?
  {
    if entries != [] {
      var n := |entries| - 1;
      var before, last := entries[..n], entries[n];
      assert forall e :: e in before ==> e in entries;
      assert last in entries;
      ConsistentIsBuilt(host, before);
      BuiltRepresents(host, before);
      var routes, name := TableOf(host, before).routes, RouteOf(host, last).name;
      if name in routes {
        var e := NameHasOwner(host, before, name);
        assert routes[name] == RouteOf(host, e) == RouteOf(host, last);
      }
    }
  }

  /** The table is built exactly when every entry is usable and entries with one name agree. */
  lemma BuiltIff(host: Host, entries: seq<ChainEntry>)
    ensures TableOf(host, entries).Built? <==> Consistent(host, entries)
  {
    BuiltRepresents(host, entries);
    if Consistent(host, entries) { ConsistentIsBuilt(host, entries); }
  }

  lemma RepresentedWithin(host: Host, a: seq<ChainEntry>, b: seq<ChainEntry>, r: map<string, Route>,
                          s: map<string, Route>, n: string)
    requires (forall e :: e in a ==> e in b) && Represents(host, a, r) && Represents(host, b, s) && n in r
    ensures n in s && r[n] == s[n]
  {
    var e := NameHasOwner(host, a, n);
    assert e in b && RouteOf(host, e).name == n;
  }

  lemma RepresentedOnce(host: Host, a: seq<ChainEntry>, b: seq<ChainEntry>, r: map<string, Route>, s: map<string, Route>)
    requires (forall e :: e in a <==> e in b) && Represents(host, a, r) && Represents(host, b, s)
    ensures r == s
  {
    forall n | n in r ensures n in s && r[n] == s[n] { RepresentedWithin(host, a, b, r, s, n); }
    forall n | n in s ensures n in r { RepresentedWithin(host, b, a, s, r, n); }
    assert r.Keys == s.Keys;
  }

  /** Order and repetition of the entries do not matter. */
  lemma OrderAndRepetition(host: Host, a: seq<ChainEntry>, b: seq<ChainEntry>)
    requires forall e :: e in a <==> e in b
    ensures TableOf(host, a).Built? <==> TableOf(host, b).Built?
    ensures TableOf(host, a).Built? ==> TableOf(host, a) == TableOf(host, b)
  {
    BuiltIff(host, a);
    BuiltIff(host, b);
    BuiltRepresents(host, a);
    BuiltRepresents(host, b);
    if TableOf(host, a).Built? {
      RepresentedOnce(host, a, b, TableOf(host, a).routes, TableOf(host, b).routes);
    }
  }

  // ---- Paths ------------------------------------------------------------------------------------------------

  const PREFIX := "/route/"

  /** Up to the first slash, and what follows it (empty when there is none). */
  function Partition(s: string): (string, string) {
    if s == [] then ("", "")
    else if s[0] == '/' then ("", s[1..])
    else
      var (head, tail) := Partition(s[1..]);
      ([s[0]] + head, tail)
  }

  /** The route that a request path selects and the path to forward; None for 404. */
  function Resolve(routes: map<string, Route>, path: string): Option<(Route, string)> {
    if !(PREFIX <= path) then None
    else
      var (name, rest) := Partition(path[|PREFIX|..]);
      if name in routes then Some((routes[name], rest)) else None
  }

  lemma {:induction false} PartitionAtFirst(name: string, suffix: string)
    requires '/' !in name
    ensures Partition(name + "/" + suffix) == (name, suffix)
    ensures Partition(name) == (name, "")
  {
    var s := name + "/" + suffix;
    if name == [] {
      assert s[1..] == suffix;
    } else {
      assert s[1..] == name[1..] + "/" + suffix;
      PartitionAtFirst(name[1..], suffix);
      assert name == [name[0]] + name[1..] && s[0] == name[0];
    }
  }

  /** The URL that the proxy asks for the rest of a path. */
  function ForwardUrl(r: Route, rest: string): string {
    r.upstream + "/" + StripSlashes(rest)
  }

  function StripSlashes(s: string): string {
    if s != [] && s[0] == '/' then StripSlashes(s[1..]) else s
  }

  /** What is forwarded is the rest without its leading slashes. */
  lemma {:induction false} SlashesStripped(s: string)
    ensures |StripSlashes(s)| <= |s| && s[|s| - |StripSlashes(s)|..] == StripSlashes(s)
    ensures forall k :: 0 <= k < |s| - |StripSlashes(s)| ==> s[k] == '/'
    ensures StripSlashes(s) != "" ==> StripSlashes(s)[0] != '/'
  {
    if s != [] && s[0] == '/' { SlashesStripped(s[1..]); }
  }

  /** The request as the proxy makes it; None for 404. */
  function Forwarded(routes: map<string, Route>, path: string): Option<string> {
    var found := Resolve(routes, path);
    if found.None? then None else Some(ForwardUrl(found.value.0, found.value.1))
  }

  /** The base URL path that the agent side writes for an entry. */
  function AgentPath(host: Host, e: ChainEntry): Option<string> {
    var name := host.naming(e.provider, e.slug);
    if name.None? then None else Some(PREFIX + name.value)
  }

  ghost predicate SlashFree(host: Host) {
    forall provider, slug :: host.naming(provider, slug).Some? ==> '/' !in host.naming(provider, slug).value
  }

  lemma NamingIsSlashFree(lower: string -> string, parse: string -> Option<Url>)
    ensures SlashFree(Host(Naming(lower), parse))
  {
    forall provider, slug | RouteName(lower, provider, slug).Some?
      ensures '/' !in RouteName(lower, provider, slug).value
    {
      NamesAreUrlSafe(lower, provider, slug);
    }
  }

  /** The route keeps the entry's provider and key variable, and its URL but for trailing slashes. */
  ghost predicate CarriesOver(e: ChainEntry, r: Route) {
    && r.provider == e.provider && r.apiKeyEnv == e.apiKeyEnv
    && SlashedAfter(r.upstream, e.baseUrl)
  }

  lemma {:induction false} StripsSlashes(s: string)
    ensures StripRight(s, '/') <= s
    ensures forall k :: |StripRight(s, '/')| <= k < |s| ==> s[k] == '/'
    ensures StripRight(s, '/') != "" ==> StripRight(s, '/')[|StripRight(s, '/')| - 1] != '/'
  {
    if s != [] && s[|s| - 1] == '/' { StripsSlashes(s[..|s| - 1]); }
  }

  /** The URL is the entry's own without trailing slashes, one slash, and the suffix without leading
      ones. */
  ghost predicate ForwardsTo(e: ChainEntry, suffix: string, url: string) {
    exists base, tail :: url == base + "/" + tail && SlashedAfter(base, e.baseUrl) && SlashedBefore(tail, suffix)
  }

  /** `s` is `base` and then slashes; `base` has none at its end. */
  ghost predicate SlashedAfter(base: string, s: string) {
    && base <= s && (forall k :: |base| <= k < |s| ==> s[k] == '/')
    && (base != "" ==> base[|base| - 1] != '/')
  }

  /** `s` is slashes and then `tail`; `tail` has none at its start. */
  ghost predicate SlashedBefore(tail: string, s: string) {
    && |tail| <= |s| && s[|s| - |tail|..] == tail && (forall k :: 0 <= k < |s| - |tail| ==> s[k] == '/')
    && (tail != "" ==> tail[0] != '/')
  }

  /** End to end: what the agent side makes of an entry, with any suffix, the proxy resolves to that
      entry's own route and the same suffix, and forwards to that entry's URL. */
  lemma RequestsReachTheirRoute(host: Host, entries: seq<ChainEntry>, e: ChainEntry, suffix: string)
    requires TableOf(host, entries).Built? && e in entries && SlashFree(host)
    ensures Usable(host, e) && AgentPath(host, e).Some? && CarriesOver(e, RouteOf(host, e))
    ensures Resolve(TableOf(host, entries).routes, AgentPath(host, e).value + "/" + suffix)
            == Some((RouteOf(host, e), suffix))
    ensures Resolve(TableOf(host, entries).routes, AgentPath(host, e).value) == Some((RouteOf(host, e), ""))
    ensures var url := Forwarded(TableOf(host, entries).routes, AgentPath(host, e).value + "/" + suffix);
            url.Some? && ForwardsTo(e, suffix, url.value)
  {
    BuiltRepresents(host, entries);
    StripsSlashes(e.baseUrl);
    SlashesStripped(suffix);
    assert SlashedAfter(RouteOf(host, e).upstream, e.baseUrl) && SlashedBefore(StripSlashes(suffix), suffix);
    var name := RouteOf(host, e).name;
    PartitionAtFirst(name, suffix);
    var path := PREFIX + name + "/" + suffix;
    assert path[|PREFIX|..] == name + "/" + suffix;
    assert (PREFIX + name)[|PREFIX|..] == name;
  }

  // ---- A message that misleads --------------------------------------------------------------------------------

  /** What the message says about the two routes is so. */
  ghost predicate Truthful(blame: Blame, existing: Route, candidate: Route) {
    match blame
    case Upstreams => existing.upstream != candidate.upstream
    case ApiKeyEnvs => existing.apiKeyEnv != candidate.apiKeyEnv
  }

  /** Entry `j` is the first that cannot be added, and entry `i` made the route it runs into. */
  ghost predicate Collide(host: Host, entries: seq<ChainEntry>, i: int, j: int) {
    && 0 <= i < j < |entries|
    && TableOf(host, entries[..j]).Built?
    && Usable(host, entries[i]) && Usable(host, entries[j])
    && RouteOf(host, entries[i]).name == RouteOf(host, entries[j]).name
    && RouteOf(host, entries[i]) != RouteOf(host, entries[j])
  }

  lemma {:induction false} ConflictHasPair(host: Host, entries: seq<ChainEntry>, blame: Blame) returns (i: int, j: int)
    requires TableOf(host, entries) == Refused(Conflict(blame))
    ensures Collide(host, entries, i, j)
    ensures blame == BlameFor(RouteOf(host, entries[i]), RouteOf(host, entries[j]))
  {
    var n := |entries| - 1;
    var before := entries[..n];
    if TableOf(host, before).Refused? {
      i, j := ConflictHasPair(host, before, blame);
      assert before[..j] == entries[..j];
    } else {
      j := n;
      BuiltRepresents(host, before);
      var e := NameHasOwner(host, before, host.naming(entries[n].provider, entries[n].slug).value);
      i :| 0 <= i < |before| && before[i] == e;
      assert e in before && RouteOf(host, e) == TableOf(host, before).routes[RouteOf(host, e).name];
    }
  }

  /** For every refusal because of a conflict there are the two entries that caused it, and the
      message about them is true if and only if they differ in upstream or key variable; so it
      misleads exactly when these agree and only the providers differ. */
  lemma BlameIsTrueIff(host: Host, entries: seq<ChainEntry>, blame: Blame) returns (i: int, j: int)
    requires TableOf(host, entries) == Refused(Conflict(blame))
    ensures Collide(host, entries, i, j)
    ensures var r, s := RouteOf(host, entries[i]), RouteOf(host, entries[j]);
            && (Truthful(blame, r, s) <==> r.upstream != s.upstream || r.apiKeyEnv != s.apiKeyEnv)
            && (!Truthful(blame, r, s) <==>
                  entries[i].provider != entries[j].provider && r.upstream == s.upstream && r.apiKeyEnv == s.apiKeyEnv)
  {
    i, j := ConflictHasPair(host, entries, blame);
  }

  /** Names do not determine providers: two entries with one name, one URL and one key variable can
      still conflict, and the message then blames the key variables, which are equal. */
  lemma BlameCanMislead(lower: string -> string, parse: string -> Option<Url>)
    requires lower("a-b-c") == "a-b-c"
    requires parse("https://h") == Some(Url("https", "h"))
    ensures var e, f := ChainEntry("a", "b-c", "https://h", "KEY"), ChainEntry("a-b", "c", "https://h", "KEY");
            && e.apiKeyEnv == f.apiKeyEnv
            && TableOf(Host(Naming(lower), parse), [e, f]) == Refused(Conflict(ApiKeyEnvs))
  {
    var e, f := ChainEntry("a", "b-c", "https://h", "KEY"), ChainEntry("a-b", "c", "https://h", "KEY");
    assert e.provider + "-" + e.slug == "a-b-c" && f.provider + "-" + f.slug == "a-b-c";
    PlainName();
    SameNameConflicts(Host(Naming(lower), parse), "a-b-c", e, f);
  }

  lemma SameNameConflicts(host: Host, name: string, e: ChainEntry, f: ChainEntry)
    requires host.naming(e.provider, e.slug) == host.naming(f.provider, f.slug) == Some(name)
    requires Usable(host, e) && Usable(host, f) && RouteFor(name, e) != RouteFor(name, f)
    ensures TableOf(host, [e, f]) == Refused(Conflict(BlameFor(RouteFor(name, e), RouteFor(name, f))))
  {
    assert [e, f][..1] == [e] && [e][..0] == [];
    assert TableOf(host, [e]) == AddEntry(host, map[], e);
    assert TableOf(host, [e, f]) == AddEntry(host, map[name := RouteFor(name, e)], f);
  }

  lemma CollapseNext(s: string, c: char)
    ensures Collapse(s + [c])
            == (if Safe(c) then Collapse(s) + [c]
                else if Collapse(s) != [] && Collapse(s)[|Collapse(s)| - 1] == '-' then Collapse(s)
                else Collapse(s) + ['-'])
  {
    assert (s + [c])[..|s|] == s;
  }

  lemma PlainName()
    ensures StripRight(StripLeft(Collapse("a-b-c")), '-') == "a-b-c"
  {
    CollapseNext("", 'a');
    assert "" + ['a'] == "a";
    CollapseNext("a", '-');
    assert "a" + ['-'] == "a-";
    CollapseNext("a-", 'b');
    assert "a-" + ['b'] == "a-b";
    CollapseNext("a-b", '-');
    assert "a-b" + ['-'] == "a-b-";
    CollapseNext("a-b-", 'c');
    assert "a-b-" + ['c'] == "a-b-c";
  }
}
