/** Origin scopes and the choice among matching grants (src/access/authorization.ts), on parsed
    scopes and parsed web origins. Hostnames are as the URL parser leaves them: lower case, with
    numeric addresses in canonical form. */
module OriginScopes {
  import opened Wrappers
  import opened Strings

  datatype Origin = Origin(protocol: string, hostname: string, port: string)

  datatype Scope =
    | WholeWeb
    | Exact(origin: Origin)
    | Subdomain(protocol: string, baseHost: string, port: string)
    | Never

  predicate Digits(s: string) {
    s != "" && forall i | 0 <= i < |s| :: '0' <= s[i] <= '9'
  }

  function Number(s: string): nat
    requires forall i | 0 <= i < |s| :: '0' <= s[i] <= '9'
  {
    if s == "" then 0 else 10 * Number(s[..|s| - 1]) + (s[|s| - 1] as int - '0' as int)
  }

  predicate Octet(s: string) {
    Digits(s) && Number(s) <= 255
  }

  predicate Ipv4Loopback(host: string) {
    var octets := Split(host, '.');
    |octets| == 4 && octets[0] == "127" && forall i | 0 <= i < 4 :: Octet(octets[i])
  }

  /** An IPv4-mapped loopback address in canonical form, such as [::ffff:7f00:1]. */
  predicate MappedLoopback(host: string) {
    |host| > 13 && host[..10] == "[::ffff:7f" && host[12] == ':' && host[|host| - 1] == ']'
  }

  predicate LocalName(host: string) {
    host in ["localhost", "localhost.", "127.0.0.1", "[::1]", "0.0.0.0", "[::]"]
  }

  predicate RawLocalhost(host: string) {
    LocalName(host) || Ipv4Loopback(host) || MappedLoopback(host)
  }

  predicate EndsWith(s: string, suffix: string) {
    |suffix| <= |s| && s[|s| - |suffix|..] == suffix
  }

  predicate Permits(scope: Scope, o: Origin) {
    match scope
    case WholeWeb => !RawLocalhost(o.hostname)
    case Never => false
    case Exact(origin) => origin == o
    case Subdomain(protocol, baseHost, port) =>
      o.protocol == protocol && port == o.port
      && o.hostname != baseHost && EndsWith(o.hostname, "." + baseHost)
  }

  /** Negative when the left scope is the broader one. */
  function Compare(left: Scope, right: Scope): int {
    if left.WholeWeb? then (if right.WholeWeb? then 0 else -1)
    else if right.WholeWeb? then 1
    else if left.Subdomain? && right.Subdomain? then
      |Split(left.baseHost, '.')| - |Split(right.baseHost, '.')|
    else if left.Subdomain? then -1
    else if right.Subdomain? then 1
    else 0
  }

  /** The comparison is a total preorder. */
  lemma CompareIsATotalPreorder(a: Scope, b: Scope, c: Scope)
    ensures Compare(a, a) == 0
    ensures Compare(a, b) < 0 <==> Compare(b, a) > 0
    ensures Compare(a, b) <= 0 && Compare(b, c) <= 0 ==> Compare(a, c) <= 0
    ensures Compare(a, b) <= 0 && Compare(b, c) < 0 ==> Compare(a, c) < 0
  {}

  // ---- broader means permitting more ----

  function Dots(s: string): nat {
    if s == "" then 0 else Dots(s[1..]) + if s[0] == '.' then 1 else 0
  }

  lemma {:induction false} LabelsAreDots(s: string)
    ensures |Split(s, '.')| == Dots(s) + 1
  {
    if s != "" { LabelsAreDots(s[1..]); }
  }

  lemma {:induction false} DotsAdd(a: string, b: string)
    ensures Dots(a + b) == Dots(a) + Dots(b)
  {
    if a == "" {
      assert a + b == b;
    } else {
      DotsAdd(a[1..], b);
      assert (a + b)[1..] == a[1..] + b && (a + b)[0] == a[0];
    }
  }

  /** Of two dotted suffixes of one name the longer is the shorter with labels put before it. */
  lemma SuffixesNest(host: string, p: string, q: string)
    requires EndsWith(host, "." + p) && EndsWith(host, "." + q) && |p| > |q|
    ensures EndsWith(p, "." + q) && Dots(p) > Dots(q)
  {
    var n := |host|;
    assert ("." + p)[1..] == p && ("." + q)[1..] == q;
    assert host[n - |p|..] == p && host[n - |q|..] == q;
    assert host[n - |q| - 1..] == "." + q;
    var head := p[..|p| - |q| - 1];
    assert p[|p| - |q| - 1..] == host[n - |q| - 1..];
    assert p == head + ("." + q);
    DotsAdd(head, "." + q);
    DotsAdd(".", q);
  }

  lemma SameSuffix(host: string, p: string, q: string)
    requires EndsWith(host, "." + p) && EndsWith(host, "." + q) && |p| == |q|
    ensures p == q
  {
    assert ("." + p)[1..] == p && ("." + q)[1..] == q;
    assert host[|host| - |p|..] == p && host[|host| - |q|..] == q;
  }

  lemma EndsWithTransitive(s: string, mid: string, suffix: string)
    requires EndsWith(s, mid) && EndsWith(mid, suffix)
    ensures EndsWith(s, suffix)
  {
    assert s[|s| - |suffix|..] == mid[|mid| - |suffix|..];
  }

  predicate Within(narrow: Scope, o: Origin, wide: Scope) {
    Permits(narrow, o) ==> Permits(wide, o)
  }

  /** An origin under a base host that no other scope with more labels reaches. */
  function Below(o: Origin, base: string): Origin {
    o.(hostname := "x." + base)
  }

  lemma BelowIsUnder(base: string)
    ensures EndsWith("x." + base, "." + base) && "x." + base != base
  {
    assert ("x." + base)[1..] == "." + base;
    assert |"x." + base| == |base| + 2;
  }

  lemma OtherHead(s: string, t: string)
    requires |s| == |t| > 0 && s[0] != t[0]
    ensures !EndsWith(s, t)
  {
    assert s[0..] == s;
  }

  lemma SubdomainsNest(a: Scope, b: Scope, o: Origin)
    requires a.Subdomain? && b.Subdomain? && Permits(a, o) && Permits(b, o)
    ensures Compare(a, b) <= 0 <==> |a.baseHost| <= |b.baseHost|
    ensures |a.baseHost| < |b.baseHost| ==> EndsWith(b.baseHost, "." + a.baseHost)
    ensures |a.baseHost| == |b.baseHost| ==> a == b
  {
    LabelsAreDots(a.baseHost);
    LabelsAreDots(b.baseHost);
    if |a.baseHost| < |b.baseHost| {
      SuffixesNest(o.hostname, b.baseHost, a.baseHost);
    } else if |a.baseHost| > |b.baseHost| {
      SuffixesNest(o.hostname, a.baseHost, b.baseHost);
    } else {
      SameSuffix(o.hostname, a.baseHost, b.baseHost);
    }
  }

  lemma BroaderPermitsMore(a: Scope, b: Scope, o: Origin, x: Origin)
    requires (a.Subdomain? || a.Exact?) && (b.Subdomain? || b.Exact?)
    requires Permits(a, o) && Permits(b, o) && Compare(a, b) <= 0 && Permits(b, x)
    ensures Permits(a, x)
  {
    if a.Subdomain? && b.Subdomain? {
      SubdomainsNest(a, b, o);
      if |a.baseHost| < |b.baseHost| {
        assert EndsWith("." + b.baseHost, b.baseHost) by { assert ("." + b.baseHost)[1..] == b.baseHost; }
        EndsWithTransitive(x.hostname, "." + b.baseHost, b.baseHost);
        EndsWithTransitive(x.hostname, b.baseHost, "." + a.baseHost);
      }
    }
  }

  lemma NarrowBreadth(a: Scope, b: Scope, o: Origin)
    requires (a.Subdomain? || a.Exact?) && (b.Subdomain? || b.Exact?)
    requires Permits(a, o) && Permits(b, o)
    ensures Compare(a, b) <= 0 <==> forall x :: Within(b, x, a)
  {
    if Compare(a, b) <= 0 {
      forall x ensures Within(b, x, a) {
        if Permits(b, x) { BroaderPermitsMore(a, b, o, x); }
      }
    } else if a.Exact? {
      var x := Below(o, o.hostname);
      var base := "." + b.baseHost;
      assert x.hostname == "x." + o.hostname;
      BelowIsUnder(o.hostname);
      assert EndsWith(x.hostname, o.hostname) by { assert x.hostname[2..] == o.hostname; }
      EndsWithTransitive(x.hostname, o.hostname, base);
      assert Permits(b, x) && !Permits(a, x);
      assert !Within(b, x, a);
    } else {
      SubdomainsNest(b, a, o);
      CompareIsATotalPreorder(a, b, a);
      var x := Below(o, b.baseHost);
      BelowIsUnder(b.baseHost);
      assert |a.baseHost| >= |b.baseHost| + 1;
      if |a.baseHost| == |b.baseHost| + 1 {
        assert EndsWith(a.baseHost, "." + b.baseHost);
        assert a.baseHost == "." + b.baseHost;
        assert ("." + a.baseHost)[0] == '.' && x.hostname[0] == 'x';
        OtherHead(x.hostname, "." + a.baseHost);
      }
      assert !Permits(a, x);
      assert !Within(b, x, a);
    }
  }

  // ---- whole-web among the scopes that are stored ----

  /** The base of a wildcard that the schema accepts, in the URL parser's form: dotted, without the
      characters of an address literal, and not a number at the end, which the parser would have
      made a dotted quad. */
  predicate DnsBase(base: string) {
    '.' in base && ':' !in base && ']' !in base && !Digits(LastLabel(base))
  }

  function LastLabel(host: string): string {
    var labels := Split(host, '.');
    labels[|labels| - 1]
  }

  predicate Storable(scope: Scope) {
    !scope.Never? && (scope.Subdomain? ==> DnsBase(scope.baseHost))
  }

  lemma {:induction false} LastLabelStays(head: string, base: string)
    ensures LastLabel(head + "." + base) == LastLabel(base)
    ensures |Split(head + "." + base, '.')| >= 2
  {
    var host := head + "." + base;
    if head == "" {
      assert host == "." + base && host[1..] == base;
    } else {
      LastLabelStays(head[1..], base);
      assert host[1..] == head[1..] + "." + base;
    }
  }

  lemma LastCharacter(host: string, base: string)
    requires EndsWith(host, "." + base) && base != ""
    ensures host[|host| - 1] == base[|base| - 1] && host[|host| - 1] in base
  {
    assert ("." + base)[|base|] == base[|base| - 1];
    assert host[|host| - |base| - 1..][|base|] == host[|host| - 1];
  }

  /** The names of the local machine that have no digits at the end have fewer dots than a name
      under a dotted base. */
  lemma DotsUnder(host: string, base: string)
    requires EndsWith(host, "." + base) && '.' in base
    ensures Dots(host) >= 2
  {
    var head := host[..|host| - |base| - 1];
    assert host == head + ("." + base);
    DotsAdd(head, "." + base);
    DotsAdd(".", base);
    DotInside(base);
  }

  lemma {:induction false} DotInside(s: string)
    requires '.' in s
    ensures Dots(s) >= 1
  {
    if s[0] != '.' { DotInside(s[1..]); }
  }

  lemma LoopbackLabels(host: string)
    requires Ipv4Loopback(host)
    ensures Digits(LastLabel(host))
  {
  }

  /** A host that no DNS base is a suffix of: it has too few dots, or ends in a number or a
      bracket. */
  predicate Foreclosed(host: string) {
    Dots(host) <= 1 || Digits(LastLabel(host)) || host[|host| - 1] == ']'
  }

  lemma LoopbackAddress(host: string)
    requires host == "127.0.0" + "." + "1"
    ensures Foreclosed(host)
  {
    LastLabelStays("127.0.0", "1");
    assert LastLabel("1") == "1";
  }

  lemma AnyAddress(host: string)
    requires host == "0.0.0" + "." + "0"
    ensures Foreclosed(host)
  {
    LastLabelStays("0.0.0", "0");
    assert LastLabel("0") == "0";
  }

  lemma {:induction false} NoDots(s: string)
    requires '.' !in s
    ensures Dots(s) == 0
  {
    if s != "" { NoDots(s[1..]); }
  }

  lemma Localhost(host: string)
    requires host == "localhost" || host == "localhost" + "."
    ensures Foreclosed(host)
  {
    NoDots("localhost");
    if host != "localhost" { DotsAdd("localhost", "."); }
  }

  lemma LocalNames(host: string)
    requires LocalName(host)
    ensures Foreclosed(host)
  {
    if host == "127.0.0.1" {
      LoopbackAddress(host);
    } else if host == "0.0.0.0" {
      AnyAddress(host);
    } else if host == "localhost" || host == "localhost." {
      Localhost(host);
    } else {
      assert host[|host| - 1] == ']';
    }
  }

  /** Nothing under a DNS base is a raw name or address of the local machine. */
  lemma DnsNamesAreNotLocal(host: string, base: string)
    requires DnsBase(base) && EndsWith(host, "." + base)
    ensures !RawLocalhost(host)
  {
    var head := host[..|host| - |base| - 1];
    assert host == head + ("." + base) == head + "." + base;
    LastLabelStays(head, base);
    LastCharacter(host, base);
    DotsUnder(host, base);
    if LocalName(host) { LocalNames(host); }
    if Ipv4Loopback(host) { LoopbackLabels(host); }
  }

  lemma StorableWithinWholeWeb(b: Scope, o: Origin, x: Origin)
    requires Storable(b) && Permits(WholeWeb, o) && Permits(b, o) && Permits(b, x)
    ensures Permits(WholeWeb, x)
  {
    if b.Subdomain? { DnsNamesAreNotLocal(x.hostname, b.baseHost); }
  }

  /** A one-label name that scope a does not permit. */
  function Elsewhere(a: Scope): Origin {
    Origin("https:", if a.Exact? && a.origin.hostname == "x" then "y" else "x", "")
  }

  lemma NarrowerThanWholeWeb(a: Scope)
    requires Storable(a) && !a.WholeWeb?
    ensures !Within(WholeWeb, Elsewhere(a), a)
  {
    var host := Elsewhere(a).hostname;
    assert |host| == 1 && |Split(host[1..], '.')| == 1;
    assert |Split(host, '.')| == 1;
  }

  /** Among stored scopes that match one origin the comparison is set inclusion: a is at least as
      broad exactly when it permits everything b permits. */
  lemma BreadthIsInclusion(a: Scope, b: Scope, o: Origin)
    requires Storable(a) && Storable(b) && Permits(a, o) && Permits(b, o)
    ensures Compare(a, b) <= 0 <==> forall x :: Within(b, x, a)
  {
    if a.WholeWeb? {
      forall x ensures Within(b, x, a) {
        if Permits(b, x) { StorableWithinWholeWeb(b, o, x); }
      }
    } else if b.WholeWeb? {
      NarrowerThanWholeWeb(a);
    } else {
      NarrowBreadth(a, b, o);
    }
  }

  // ---- the choice ----

  type BindingId = nat

  datatype Binding = Binding(project: BindingId, host: BindingId, installation: BindingId, profile: BindingId)

  /** Which elevations a grant carries, and until when; None means no limit. */
  datatype Grant = Grant(binding: Binding, scope: Scope, fileTransfer: bool, certificates: set<Origin>,
                         wholeWebExpires: Option<int>, fileTransferExpires: Option<int>,
                         certificatesExpire: Option<int>, revokedAt: Option<int>)

  datatype Request = Request(binding: Binding, origin: Option<Origin>, fileTransfer: bool,
                             invalidCertificate: bool)

  predicate StillActive(expires: Option<int>, now: int) {
    expires.None? || now < expires.value
  }

  predicate PermitsElevations(g: Grant, r: Request, origin: Origin, now: int) {
    && (g.scope.WholeWeb? ==> StillActive(g.wholeWebExpires, now))
    && (r.fileTransfer ==> g.fileTransfer && StillActive(g.fileTransferExpires, now))
    && (r.invalidCertificate ==> origin in g.certificates && StillActive(g.certificatesExpire, now))
  }

  function Matching(grants: seq<Grant>, origin: Origin): seq<Grant> {
    if grants == [] then []
    else (if Permits(grants[0].scope, origin) then [grants[0]] else []) + Matching(grants[1..], origin)
  }

  /** A stable sort: an element goes before the first one it is not narrower than. */
  function Place(g: Grant, sorted: seq<Grant>): seq<Grant> {
    if sorted == [] || Compare(g.scope, sorted[0].scope) <= 0 then [g] + sorted
    else [sorted[0]] + Place(g, sorted[1..])
  }

  function BroadestFirst(grants: seq<Grant>): seq<Grant> {
    if grants == [] then [] else Place(grants[0], BroadestFirst(grants[1..]))
  }

  function FirstPermitting(grants: seq<Grant>, r: Request, origin: Origin, now: int): Option<Grant> {
    if grants == [] then None
    else if PermitsElevations(grants[0], r, origin, now) then Some(grants[0])
    else FirstPermitting(grants[1..], r, origin, now)
  }

  datatype Denial = OriginRequired | NoGrant | NotElevated

  function AuthorizeAgainst(grants: seq<Grant>, r: Request, now: int): Result<Grant, Denial> {
    if r.origin.None? then Err(OriginRequired)
    else
      var matching := BroadestFirst(Matching(grants, r.origin.value));
      if matching == [] then Err(NoGrant)
      else
        var permitted := FirstPermitting(matching, r, r.origin.value, now);
        if permitted.None? then Err(NotElevated) else Ok(permitted.value)
  }

  /** A grant that covers the origin and every elevation asked for. */
  predicate Covers(g: Grant, r: Request, now: int) {
    r.origin.Some? && Permits(g.scope, r.origin.value)
    && PermitsElevations(g, r, r.origin.value, now)
  }

  /** The broadest covering grant, the earliest of equally broad ones. */
  function Best(grants: seq<Grant>, r: Request, now: int): Option<Grant> {
    if grants == [] then None
    else
      var rest := Best(grants[1..], r, now);
      if Covers(grants[0], r, now) && (rest.None? || Compare(grants[0].scope, rest.value.scope) <= 0)
      then Some(grants[0]) else rest
  }

  ghost predicate Sorted(grants: seq<Grant>) {
    forall i, j | 0 <= i < j < |grants| :: Compare(grants[i].scope, grants[j].scope) <= 0
  }

  lemma {:induction false} PlaceKeepsSorted(g: Grant, sorted: seq<Grant>)
    requires Sorted(sorted)
    ensures Sorted(Place(g, sorted)) && |Place(g, sorted)| == |sorted| + 1
    ensures forall x | x in Place(g, sorted) :: x == g || x in sorted
  {
    if sorted != [] && Compare(g.scope, sorted[0].scope) > 0 {
      PlaceKeepsSorted(g, sorted[1..]);
      var r := Place(g, sorted[1..]);
      forall k | 0 <= k < |r| ensures Compare(sorted[0].scope, r[k].scope) <= 0 {
        assert r[k] in r;
      }
    } else if sorted != [] {
      forall k | 0 <= k < |sorted| ensures Compare(g.scope, sorted[k].scope) <= 0 {
        CompareIsATotalPreorder(g.scope, sorted[0].scope, sorted[k].scope);
      }
    }
  }

  lemma {:induction false} FindInPlaced(g: Grant, sorted: seq<Grant>, r: Request, origin: Origin, now: int)
    requires Sorted(sorted)
    ensures var found, rest := FirstPermitting(Place(g, sorted), r, origin, now),
                               FirstPermitting(sorted, r, origin, now);
            found == if PermitsElevations(g, r, origin, now)
                        && (rest.None? || Compare(g.scope, rest.value.scope) <= 0)
                     then Some(g) else rest
  {
    if sorted == [] {
      assert ([g] + sorted)[1..] == sorted;
    } else if Compare(g.scope, sorted[0].scope) <= 0 {
      assert ([g] + sorted)[1..] == sorted;
      FoundIsMember(sorted, r, origin, now);
      var rest := FirstPermitting(sorted, r, origin, now);
      if rest.Some? {
        var k :| 0 <= k < |sorted| && sorted[k] == rest.value;
        if k > 0 { CompareIsATotalPreorder(g.scope, sorted[0].scope, sorted[k].scope); }
      }
    } else {
      assert ([sorted[0]] + Place(g, sorted[1..]))[1..] == Place(g, sorted[1..]);
      FindInPlaced(g, sorted[1..], r, origin, now);
    }
  }

  lemma {:induction false} FoundIsMember(grants: seq<Grant>, r: Request, origin: Origin, now: int)
    ensures var found := FirstPermitting(grants, r, origin, now);
            found.Some? ==> found.value in grants
  {
    if grants != [] { FoundIsMember(grants[1..], r, origin, now); }
  }

  lemma {:induction false} SortedFindIsBest(grants: seq<Grant>, r: Request, now: int)
    requires r.origin.Some?
    ensures Sorted(BroadestFirst(Matching(grants, r.origin.value)))
    ensures FirstPermitting(BroadestFirst(Matching(grants, r.origin.value)), r, r.origin.value, now)
            == Best(grants, r, now)
  {
    if grants != [] {
      SortedFindIsBest(grants[1..], r, now);
      var origin := r.origin.value;
      if Permits(grants[0].scope, origin) {
        var tail := BroadestFirst(Matching(grants[1..], origin));
        assert Matching(grants, origin)[1..] == Matching(grants[1..], origin);
        PlaceKeepsSorted(grants[0], tail);
        FindInPlaced(grants[0], tail, r, origin, now);
      } else {
        assert Matching(grants, origin) == Matching(grants[1..], origin);
      }
    }
  }

  /** The i-th grant covers the request; no covering grant is broader, and none before it as broad. */
  ghost predicate BroadestAt(grants: seq<Grant>, i: nat, r: Request, now: int)
    requires i < |grants|
  {
    && Covers(grants[i], r, now)
    && forall j | 0 <= j < |grants| && Covers(grants[j], r, now) ::
         Compare(grants[i].scope, grants[j].scope) < 0
         || (Compare(grants[i].scope, grants[j].scope) == 0 && i <= j)
  }

  lemma {:induction false} BestIsBroadest(grants: seq<Grant>, r: Request, now: int)
    ensures var best := Best(grants, r, now);
            if best.None? then forall g | g in grants :: !Covers(g, r, now)
            else exists i :: 0 <= i < |grants| && grants[i] == best.value && BroadestAt(grants, i, r, now)
  {
    if grants != [] {
      var rest := grants[1..];
      BestIsBroadest(rest, r, now);
      var best, tail := Best(grants, r, now), Best(rest, r, now);
      if tail.Some? {
        var k :| 0 <= k < |rest| && rest[k] == tail.value && BroadestAt(rest, k, r, now);
        var i := if Covers(grants[0], r, now) && Compare(grants[0].scope, tail.value.scope) <= 0 then 0
                 else k + 1;
        assert grants[i] == best.value && Covers(grants[i], r, now);
        forall j | 0 <= j < |grants| && Covers(grants[j], r, now)
          ensures Compare(grants[i].scope, grants[j].scope) < 0
                  || (Compare(grants[i].scope, grants[j].scope) == 0 && i <= j)
        {
          CompareIsATotalPreorder(grants[0].scope, tail.value.scope, grants[j].scope);
          if j > 0 { assert grants[j] == rest[j - 1]; }
        }
      } else {
        assert forall j | 0 < j < |grants| :: grants[j] == rest[j - 1] && grants[j] in rest;
        if best.Some? { assert grants[0] == best.value; }
      }
    }
  }

  lemma {:induction false} NoMatch(grants: seq<Grant>, origin: Origin)
    ensures BroadestFirst(Matching(grants, origin)) == [] <==>
            forall g | g in grants :: !Permits(g.scope, origin)
  {
    if grants != [] {
      NoMatch(grants[1..], origin);
      if Permits(grants[0].scope, origin) {
        assert Matching(grants, origin)[1..] == Matching(grants[1..], origin);
      } else {
        assert Matching(grants, origin) == Matching(grants[1..], origin);
      }
    }
  }

  /** Authorization is allowed exactly when some grant covers the request, and then the grant it
      returns is a broadest covering one, the earliest stored among equals. Each denial says what
      was missing. */
  lemma AuthorizesTheBroadest(grants: seq<Grant>, r: Request, now: int)
    ensures var decision := AuthorizeAgainst(grants, r, now);
            && (decision.Ok? <==> exists g :: g in grants && Covers(g, r, now))
            && (decision.Ok? ==>
                  exists i :: 0 <= i < |grants| && grants[i] == decision.value && BroadestAt(grants, i, r, now))
            && (decision == Err(OriginRequired) <==> r.origin.None?)
            && (decision == Err(NoGrant) <==>
                  r.origin.Some? && forall g | g in grants :: !Permits(g.scope, r.origin.value))
  {
    if r.origin.Some? {
      SortedFindIsBest(grants, r, now);
      BestIsBroadest(grants, r, now);
      NoMatch(grants, r.origin.value);
    }
  }

  /** Adding grants, wherever they are stored, never turns an allow into a deny. */
  lemma MoreGrantsNeverDeny(fewer: seq<Grant>, more: seq<Grant>, r: Request, now: int)
    requires forall g | g in fewer :: g in more
    requires AuthorizeAgainst(fewer, r, now).Ok?
    ensures AuthorizeAgainst(more, r, now).Ok?
    ensures Compare(AuthorizeAgainst(more, r, now).value.scope,
                    AuthorizeAgainst(fewer, r, now).value.scope) <= 0
  {
    AuthorizesTheBroadest(fewer, r, now);
    AuthorizesTheBroadest(more, r, now);
    var g := AuthorizeAgainst(fewer, r, now).value;
    assert g in more && Covers(g, r, now);
    var j :| 0 <= j < |more| && more[j] == g;
  }
}
