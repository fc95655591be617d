/** The coordinator of the current engine: it builds the link set from the
    configuration (unique names and slugs, one primary, demotion of a second
    primary), updates every link on each tick, derives the Internet status
    from the primary and the secondaries, learns the configured addresses
    once, and schedules the next tick. */
module StatusCoordinator {
  import opened Common
  import opened Answers
  import opened InternetLinks

  /** The settings of one configured link; None is an absent key. The rtt
      entry is the update interval of the rtt sensor when one is
      configured. */
  datatype LinkConfig = LinkConfig(
    name: Option<string>,
    linkType: Option<LinkType>,
    probeType: Option<ProbeType>,
    probeTarget: Option<string>,
    scanInterval: Option<nat>,
    timeout: Option<real>,
    retries: Option<nat>,
    reverseHostname: Option<string>,
    configuredIp: Option<string>,
    rttUpdateInterval: Option<nat>)

  /** The top-level configuration: the links and the settings they inherit. */
  datatype Config = Config(
    links: seq<LinkConfig>,
    scanInterval: Option<nat>,
    timeout: Option<real>,
    retries: Option<nat>)

  /** `get_inherited_attr`: a link setting is the link's own value, else
      the top-level one, else the default. */
  function Inherited<T>(own: Option<T>, top: Option<T>, default: T): (r: T)
    ensures own.Some? ==> r == own.value
    ensures own.None? && top.Some? ==> r == top.value
    ensures own.None? && top.None? ==> r == default
  {
    if own.Some? then own.value else if top.Some? then top.value else default
  }

  function RoleOf(c: LinkConfig): LinkType {
    if c.linkType.Some? then c.linkType.value else DEFAULT_LINK_TYPE
  }

  /** The kind of link a probe type builds; a missing probe type and `Ping`
      build none. */
  function KindOf(c: LinkConfig): Option<LinkKind> {
    match c.probeType
    case Some(File) => Some(FileLink)
    case Some(Google) => Some(DnsLink(GoogleDns))
    case Some(OpenDns) => Some(DnsLink(OpenDnsDns))
    case Some(Akamai) => Some(DnsLink(AkamaiDns))
    case _ => None
  }

  /** A configuration is built into a link unless its probe type builds none
      or it names a DNS probe without a target. */
  predicate Buildable(c: LinkConfig) {
    KindOf(c).Some? && (KindOf(c).value.DnsLink? ==> c.probeTarget.Some?)
  }

  /** A registered link: the configuration it was built from and its role. */
  datatype Entry = Entry(config: LinkConfig, role: LinkType)

  predicate HasPrimary(plan: seq<Entry>) {
    exists k :: 0 <= k < |plan| && plan[k].role == Primary
  }

  /** The links construction registers, in order: every buildable
      configuration, with a primary declared after the first one demoted to
      secondary. */
  function Plan(cs: seq<LinkConfig>): seq<Entry>
    decreases |cs|
  {
    if cs == [] then []
    else
      var init := Plan(cs[..|cs| - 1]);
      var c := cs[|cs| - 1];
      if !Buildable(c) then init
      else init + [Entry(c, if RoleOf(c) == Primary && HasPrimary(init) then Secondary else RoleOf(c))]
  }

  /** The buildable configurations, in order. */
  function Kept(cs: seq<LinkConfig>): (kept: seq<LinkConfig>)
    ensures forall k :: 0 <= k < |kept| ==> Buildable(kept[k]) && kept[k] in cs
    decreases |cs|
  {
    if cs == [] then []
    else
      var c := cs[|cs| - 1];
      Kept(cs[..|cs| - 1]) + (if Buildable(c) then [c] else [])
  }

  /** The plan registers exactly the buildable configurations, in order;
      each keeps its declared role except that a primary may become a
      secondary; at most one entry is primary. */
  lemma {:induction false} PlanShape(cs: seq<LinkConfig>)
    ensures |Plan(cs)| == |Kept(cs)|
    ensures forall k :: 0 <= k < |Plan(cs)| ==> Plan(cs)[k].config == Kept(cs)[k]
    ensures forall k :: 0 <= k < |Plan(cs)| ==>
      Plan(cs)[k].role == RoleOf(Plan(cs)[k].config)
      || (RoleOf(Plan(cs)[k].config) == Primary && Plan(cs)[k].role == Secondary)
    ensures forall j, k ::
      (0 <= j < |Plan(cs)| && 0 <= k < |Plan(cs)| && Plan(cs)[j].role == Primary && Plan(cs)[k].role == Primary)
      ==> j == k
    decreases |cs|
  {
    if cs != [] {
      PlanShape(cs[..|cs| - 1]);
    }
  }

  /** Construction finds a primary exactly when some buildable configuration
      declares one; the first such configuration is the primary. */
  lemma {:induction false} PlanPrimaryIff(cs: seq<LinkConfig>)
    ensures HasPrimary(Plan(cs)) <==> exists i :: 0 <= i < |cs| && Buildable(cs[i]) && RoleOf(cs[i]) == Primary
    decreases |cs|
  {
    if cs != [] {
      var init := cs[..|cs| - 1];
      PlanPrimaryIff(init);
      var c := cs[|cs| - 1];
      if HasPrimary(Plan(init)) {
        var k :| 0 <= k < |Plan(init)| && Plan(init)[k].role == Primary;
        assert Plan(cs)[k] == Plan(init)[k];
        var i :| 0 <= i < |init| && Buildable(init[i]) && RoleOf(init[i]) == Primary;
        assert cs[i] == init[i];
      } else if Buildable(c) && RoleOf(c) == Primary {
        assert Plan(cs)[|Plan(cs)| - 1].role == Primary;
      } else {
        assert Plan(cs) == Plan(init) || Plan(cs) == Plan(init) + [Entry(c, RoleOf(c))];
        if exists i :: 0 <= i < |cs| && Buildable(cs[i]) && RoleOf(cs[i]) == Primary {
          var i :| 0 <= i < |cs| && Buildable(cs[i]) && RoleOf(cs[i]) == Primary;
          assert i < |init| && init[i] == cs[i];
        }
      }
    }
  }

  /** The plan of one more configuration extends the plan so far. */
  lemma PlanStep(cs: seq<LinkConfig>, i: nat)
    requires i < |cs|
    ensures Plan(cs[..i + 1]) == Plan(cs[..i]) + (if Buildable(cs[i]) then
      [Entry(cs[i], if RoleOf(cs[i]) == Primary && HasPrimary(Plan(cs[..i])) then Secondary else RoleOf(cs[i]))]
      else [])
  {
    assert cs[..i + 1][..i] == cs[..i];
  }

  /** The name "Link <k>" a link gets when it has none or its name is taken. */
  function DefaultName(k: nat): string {
    "Link " + DecimalString(k)
  }

  /** The slug function tells default names apart, as `slugify` does; the
      numbering loop relies on it to terminate. */
  ghost predicate SlugSeparatesDefaults(slug: string -> string) {
    forall j: nat, k: nat :: slug(DefaultName(j)) == slug(DefaultName(k)) ==> j == k
  }

  /** A slug function that maps every default name to one fixed prefix
      followed by its number, as `slugify` maps "Link 7" to "link_7", tells
      default names apart. */
  lemma NumberedSlugSeparates(slug: string -> string, prefix: string)
    requires forall k: nat :: slug(DefaultName(k)) == prefix + DecimalString(k)
    ensures SlugSeparatesDefaults(slug)
  {
    forall j: nat, k: nat | slug(DefaultName(j)) == slug(DefaultName(k))
      ensures j == k
    {
      var sj, sk := prefix + DecimalString(j), prefix + DecimalString(k);
      assert sj[|prefix|..] == DecimalString(j);
      assert sk[|prefix|..] == DecimalString(k);
      DecimalInjective(j, k);
    }
  }

  /** The identity tells default names apart, so the construction
      precondition can be met. */
  lemma IdentitySeparates()
    ensures SlugSeparatesDefaults(s => s)
  {
    NumberedSlugSeparates(s => s, "Link ");
  }

  /** The slugs of the default names numbered strictly between `lo` and
      `hi`. */
  ghost function SlugsBetween(slug: string -> string, lo: nat, hi: nat): set<string>
    decreases hi
  {
    if hi <= lo + 1 then {} else SlugsBetween(slug, lo, hi - 1) + {slug(DefaultName(hi - 1))}
  }

  /** The slug of a default name numbered `hi` or above is not among those
      below `hi`. */
  lemma {:induction false} NotBetween(slug: string -> string, lo: nat, hi: nat, n: nat)
    requires SlugSeparatesDefaults(slug)
    requires hi <= n
    ensures slug(DefaultName(n)) !in SlugsBetween(slug, lo, hi)
    decreases hi
  {
    if hi > lo + 1 {
      NotBetween(slug, lo, hi - 1, n);
      assert slug(DefaultName(hi - 1)) != slug(DefaultName(n));
    }
  }

  /** Separated default names give as many slugs as numbers. */
  lemma {:induction false} BetweenCount(slug: string -> string, lo: nat, hi: nat)
    requires SlugSeparatesDefaults(slug)
    ensures lo < hi ==> |SlugsBetween(slug, lo, hi)| == hi - lo - 1
    decreases hi
  {
    if hi > lo + 1 {
      BetweenCount(slug, lo, hi - 1);
      NotBetween(slug, lo, hi - 1, hi - 1);
    }
  }

  lemma {:induction false} BetweenWithin(slug: string -> string, lo: nat, hi: nat, slugs: seq<string>)
    requires forall k: nat :: lo < k < hi ==> slug(DefaultName(k)) in slugs
    ensures SlugsBetween(slug, lo, hi) <= set s | s in slugs
    decreases hi
  {
    if hi > lo + 1 {
      BetweenWithin(slug, lo, hi - 1, slugs);
    }
  }

  lemma {:induction false} ElementsBound(xs: seq<string>)
    ensures |set s | s in xs| <= |xs|
    decreases |xs|
  {
    if xs != [] {
      var init := xs[..|xs| - 1];
      ElementsBound(init);
      assert (set s | s in xs) == (set s | s in init) + {xs[|xs| - 1]};
    }
  }

  /** Pigeonhole: when every default name numbered strictly between `lo`
      and `hi` has its slug among `slugs`, there are at most `|slugs|` such
      names. */
  lemma TakenDefaultsBound(slug: string -> string, lo: nat, hi: nat, slugs: seq<string>)
    requires SlugSeparatesDefaults(slug)
    requires lo < hi
    requires forall k: nat :: lo < k < hi ==> slug(DefaultName(k)) in slugs
    ensures hi - lo - 1 <= |slugs|
  {
    var a := SlugsBetween(slug, lo, hi);
    var b := set s | s in slugs;
    BetweenCount(slug, lo, hi);
    BetweenWithin(slug, lo, hi, slugs);
    ElementsBound(slugs);
    assert b == a + (b - a);
  }

  /** A name is taken when it is a key or its slug is already used. */
  predicate Taken(slugify: string -> string, names: seq<string>, slugsAll: seq<string>, name: string) {
    name in names || slugify(name) in slugsAll
  }

  /** The name tried at counter value `id` by a naming that starts at
      `linkId`: the link's own name first when it has one, then the default
      names from the counter on. */
  function Candidate(given: Option<string>, linkId: nat, id: nat): string {
    if id == linkId && given.Some? then given.value else DefaultName(id)
  }

  /** `r`, tried at counter value `id`, is the first free candidate: it is
      free and every candidate tried before it was taken. */
  predicate FirstFree(slugify: string -> string, names: seq<string>, slugsAll: seq<string>,
                      given: Option<string>, linkId: nat, r: string, id: nat)
  {
    && linkId <= id && r == Candidate(given, linkId, id)
    && !Taken(slugify, names, slugsAll, r)
    && forall k :: linkId <= k < id ==> Taken(slugify, names, slugsAll, Candidate(given, linkId, k))
  }

  /** At most one name is the first free candidate. */
  lemma FirstFreeUnique(slugify: string -> string, names: seq<string>, slugsAll: seq<string>,
                        given: Option<string>, linkId: nat, r1: string, id1: nat, r2: string, id2: nat)
    requires FirstFree(slugify, names, slugsAll, given, linkId, r1, id1)
    requires FirstFree(slugify, names, slugsAll, given, linkId, r2, id2)
    ensures r1 == r2 && id1 == id2
  {
  }

  /** `get_unique_name`: the link's own name if it is free, otherwise the
      first free default name "Link <id>" from the current counter on; a
      name is free when neither it nor its slug is taken. */
  method UniqueName(slugify: string -> string, names: seq<string>, slugsAll: seq<string>, name: Option<string>, linkId: nat)
    returns (r: string, id: nat)
    requires |names| == |slugsAll| && forall i :: 0 <= i < |names| ==> slugsAll[i] == slugify(names[i])
    requires SlugSeparatesDefaults(slugify)
    ensures FirstFree(slugify, names, slugsAll, name, linkId, r, id)
    ensures name.Some? && !Taken(slugify, names, slugsAll, name.value) ==> r == name.value
  {
    id := linkId;
    r := Candidate(name, linkId, id);
    while Taken(slugify, names, slugsAll, r)
      invariant linkId <= id && r == Candidate(name, linkId, id)
      invariant forall k :: linkId <= k < id ==> Taken(slugify, names, slugsAll, Candidate(name, linkId, k))
      invariant forall k :: linkId < k < id ==> slugify(DefaultName(k)) in slugsAll
      decreases linkId + |slugsAll| + 1 - id, if id == linkId && name.Some? then 1 else 0
    {
      if r in names {
        var i :| 0 <= i < |names| && names[i] == r;
        assert slugsAll[i] == slugify(r);
      }
      if id > linkId || name.None? {
        TakenDefaultsBound(slugify, linkId, id + 1, slugsAll);
      }
      id := id + 1;
      r := Candidate(name, linkId, id);
    }
  }

  /** The state a link is in right after construction. */
  function InitialView(c: LinkConfig, now: int): LinkView {
    var dns := KindOf(c).Some? && KindOf(c).value.DnsLink?;
    LinkView(None, now, None, if dns then c.configuredIp else None, None, None, None,
             if dns then c.rttUpdateInterval else None,
             if dns && c.rttUpdateInterval.Some? then Some(now) else None)
  }

  /** `l` is the link construction builds from entry `e`. */
  predicate BuiltFrom(l: Link, e: Entry, config: Config) {
    var c := e.config;
    && KindOf(c) == Some(l.kind)
    && l.linkType == e.role
    && l.probeTarget == c.probeTarget
    && l.scanInterval == Inherited(c.scanInterval, config.scanInterval, DEFAULT_SCAN_INTERVAL)
    && (l.kind.DnsLink? ==>
          && l.reverseHostname == c.reverseHostname
          && l.retries == Inherited(c.retries, config.retries, DEFAULT_RETRIES)
          && l.timeout == Inherited(c.timeout, config.timeout, DEFAULT_TIMEOUT)
          && (l.configuredIpSet <==> IsTruthy(c.configuredIp)))
    && (l.kind == FileLink ==> l.reverseHostname == None && !l.configuredIpSet)
  }

  /** Builds the link of one buildable configuration with the given name
      and role; a DNS link with an rtt sensor has rtt reporting on. */
  method BuildLink(c: LinkConfig, name: string, role: LinkType, config: Config, now: int) returns (link: Link)
    requires Buildable(c)
    ensures fresh(link) && link.name == name
    ensures BuiltFrom(link, Entry(c, role), config) && link.View() == InitialView(c, now)
  {
    var scan := Inherited(c.scanInterval, config.scanInterval, DEFAULT_SCAN_INTERVAL);
    var kind := KindOf(c).value;
    if kind == FileLink {
      link := new Link.File(role, name, c.probeTarget, scan, now);
    } else {
      link := new Link.Dns(role, name, kind.service, c.probeTarget.value, scan, c.reverseHostname,
                           c.configuredIp, Inherited(c.retries, config.retries, DEFAULT_RETRIES),
                           Inherited(c.timeout, config.timeout, DEFAULT_TIMEOUT), now);
      if c.rttUpdateInterval.Some? {
        link.EnableRtt(c.rttUpdateInterval.value, now);
      }
    }
  }

  /** The overall Internet status the coordinator reports. */
  datatype InternetStatus =
    | Up | Down | DegradedPrimaryDown | FailoverToOther | FailoverToSecondary
    | DegradedSecondaryDown | Failover

  /** The text the coordinator publishes for a status. */
  function StatusText(s: InternetStatus): string {
    match s
    case Up => "up"
    case Down => "down"
    case DegradedPrimaryDown => "degraded (primary down)"
    case FailoverToOther => "failover to other (primary down)"
    case FailoverToSecondary => "failover to secondary (primary down)"
    case DegradedSecondaryDown => "degraded (secondary down)"
    case Failover => "failover"
  }

  /** Distinct statuses are published as distinct texts, so the text
      determines the status. */
  lemma StatusTextInjective(s: InternetStatus, t: InternetStatus)
    ensures StatusText(s) == StatusText(t) <==> s == t
  {
    if s != t {
      assert |StatusText(s)| != |StatusText(t)|;
    }
  }

  /** The status of the current engine, from the primary's state and
      the secondaries' states (the primary is up exactly when its `link_up`
      is, since its reverse host name is never `False`). */
  function Status(p: LinkView, secs: seq<LinkView>): (s: InternetStatus)
    ensures s == Failover <==> IsTrue(p.linkUp) && AllUp(secs) && IpAmong(p.currentIp, secs)
    ensures s == Up <==> IsTrue(p.linkUp) && AllUp(secs) && !IpAmong(p.currentIp, secs)
  {
    if !IsTrue(p.linkUp) then
      if p.linkUp == Some(false) && !AnyUp(secs) then Down
      else if IsTruthy(p.currentIp) then
        (if IpAmong(p.currentIp, secs) then FailoverToSecondary
         else FailoverToOther)
      else DegradedPrimaryDown
    else if !AllUp(secs) then DegradedSecondaryDown
    else if IpAmong(p.currentIp, secs) then Failover
    else Up
  }

  /** The rest of the decision table: the five statuses other than Up and
      Failover and the states that produce them. */
  lemma StatusTable(p: LinkView, secs: seq<LinkView>)
    ensures var s := Status(p, secs);
      && (s == Down <==> p.linkUp == Some(false) && !AnyUp(secs))
      && (s == DegradedPrimaryDown <==>
            !IsTrue(p.linkUp) && !(p.linkUp == Some(false) && !AnyUp(secs)) && !IsTruthy(p.currentIp))
      && (s == FailoverToOther <==>
            !IsTrue(p.linkUp) && !(p.linkUp == Some(false) && !AnyUp(secs)) && IsTruthy(p.currentIp)
            && !IpAmong(p.currentIp, secs))
      && (s == FailoverToSecondary <==>
            !IsTrue(p.linkUp) && !(p.linkUp == Some(false) && !AnyUp(secs)) && IsTruthy(p.currentIp)
            && IpAmong(p.currentIp, secs))
      && (s == DegradedSecondaryDown <==> IsTrue(p.linkUp) && !AllUp(secs))
  {
  }

  /** The status tells whether the primary is up: the primary is up exactly
      when the status is Up, Failover or DegradedSecondaryDown;
      Down also needs every secondary to be not up, and a primary that
      reports no address is never in failover. */
  lemma StatusPartition(p: LinkView, secs: seq<LinkView>)
    ensures IsTrue(p.linkUp) <==> Status(p, secs) in {Up, Failover, DegradedSecondaryDown}
    ensures Status(p, secs) == Down ==> forall i :: 0 <= i < |secs| ==> !IsTrue(secs[i].linkUp)
    ensures !IsTrue(p.linkUp) && p.currentIp == None ==> Status(p, secs) in {Down, DegradedPrimaryDown}
  {
  }

  /** `any` over the secondaries' `link_up`. */
  predicate AnyUp(secs: seq<LinkView>) {
    exists i :: 0 <= i < |secs| && IsTrue(secs[i].linkUp)
  }

  /** `all` over the secondaries' `link_up`. */
  predicate AllUp(secs: seq<LinkView>) {
    forall i :: 0 <= i < |secs| ==> IsTrue(secs[i].linkUp)
  }

  /** `ip in` the secondaries' current addresses. */
  predicate IpAmong(ip: Option<string>, secs: seq<LinkView>) {
    exists i :: 0 <= i < |secs| && secs[i].currentIp == ip
  }

  /** The status table as written: the shared-address test asks whether the
      primary address equals the one object in a one-element list holding
      the iterator of secondary addresses, which no address does, so the
      Failover outcome is never produced. */
  function StatusAsWritten(p: LinkView, secs: seq<LinkView>): (s: InternetStatus)
    ensures s != Failover
    ensures s != Status(p, secs) ==> s == Up && Status(p, secs) == Failover
  {
    if !IsTrue(p.linkUp) then Status(p, secs)
    else if !AllUp(secs) then DegradedSecondaryDown
    else Up
  }

  /** A primary that is up on the address of secondaries that are all up is
      reported Up as written (and then triggers learning), where
      Failover is meant. */
  lemma SharedAddressCounterexample()
    ensures var p := LinkView(Some(true), 0, None, None, Some("203.0.113.7"), None, None, None, None);
      var secs := [p.(linkUp := Some(true))];
      StatusAsWritten(p, secs) == Up && Status(p, secs) == Failover
  {
    var p := LinkView(Some(true), 0, None, None, Some("203.0.113.7"), None, None, None, None);
    var secs := [p.(linkUp := Some(true))];
    assert IpAmong(p.currentIp, secs) by {
      assert secs[0].currentIp == p.currentIp;
    }
  }

  /** With no secondaries, the primary alone decides: up when up, down when
      down, degraded or failover-to-other when unknown. */
  lemma StatusWithoutSecondaries(p: LinkView)
    ensures Status(p, []) == Up <==> IsTrue(p.linkUp)
    ensures Status(p, []) == Down <==> p.linkUp == Some(false)
  {
  }

  function Views(ls: seq<Link>): (vs: seq<LinkView>)
    reads set l | l in ls
    ensures |vs| == |ls|
    ensures forall i :: 0 <= i < |ls| ==> vs[i] == ls[i].View()
    decreases |ls|
  {
    if ls == [] then [] else Views(ls[..|ls| - 1]) + [ls[|ls| - 1].View()]
  }

  /** The observation a tick feeds to the link named `name`. */
  function InputFor(inputs: map<string, Observation>, name: string): Observation {
    if name in inputs then inputs[name] else Observation("", [], PtrError)
  }

  function UpdatedView(l: Link, now: int, inputs: map<string, Observation>, isAddress: string -> bool): LinkView
    reads l
  {
    Updated(l.Params(), l.View(), now, InputFor(inputs, l.name), isAddress)
  }

  function UpdatedViews(ls: seq<Link>, now: int, inputs: map<string, Observation>, isAddress: string -> bool): (vs: seq<LinkView>)
    reads set l | l in ls
    ensures |vs| == |ls|
    ensures forall i :: 0 <= i < |ls| ==> vs[i] == UpdatedView(ls[i], now, inputs, isAddress)
    decreases |ls|
  {
    if ls == [] then []
    else UpdatedViews(ls[..|ls| - 1], now, inputs, isAddress) + [UpdatedView(ls[|ls| - 1], now, inputs, isAddress)]
  }

  /** The links of one role, in registration order. */
  function OfType(ls: seq<Link>, t: LinkType): (r: seq<Link>)
    ensures |r| <= |ls|
    decreases |ls|
  {
    if ls == [] then []
    else OfType(ls[..|ls| - 1], t) + (if ls[|ls| - 1].linkType == t then [ls[|ls| - 1]] else [])
  }

  lemma OfTypeAppend(ls: seq<Link>, l: Link, t: LinkType)
    ensures OfType(ls + [l], t) == OfType(ls, t) + (if l.linkType == t then [l] else [])
  {
    assert (ls + [l])[..|ls|] == ls;
  }

  /** A role list holds exactly the links of that role. */
  lemma {:induction false} OfTypeMembers(ls: seq<Link>, t: LinkType)
    ensures forall j :: 0 <= j < |OfType(ls, t)| ==> OfType(ls, t)[j].linkType == t && OfType(ls, t)[j] in ls
    ensures forall i :: 0 <= i < |ls| && ls[i].linkType == t ==> ls[i] in OfType(ls, t)
    decreases |ls|
  {
    if ls != [] {
      var init := ls[..|ls| - 1];
      OfTypeMembers(init, t);
      assert forall i :: 0 <= i < |init| ==> init[i] == ls[i];
    }
  }

  /** The role list of links without repeats has no repeats. */
  lemma {:induction false} OfTypeDistinct(ls: seq<Link>, t: LinkType)
    requires forall i, j :: 0 <= i < j < |ls| ==> ls[i] != ls[j]
    ensures forall i, j :: 0 <= i < j < |OfType(ls, t)| ==> OfType(ls, t)[i] != OfType(ls, t)[j]
    decreases |ls|
  {
    if ls != [] {
      var init := ls[..|ls| - 1];
      OfTypeDistinct(init, t);
      OfTypeMembers(init, t);
      var last := ls[|ls| - 1];
      assert last !in init;
    }
  }

  /** The registry invariant on values: names, links and slugs are aligned,
      slugs are unique, and each role list is the links of that role. */
  ghost predicate Registry(slugify: string -> string, names: seq<string>, links: seq<Link>, slugsAll: seq<string>,
                           primary: Link?, secondaries: seq<Link>, monitors: seq<Link>)
  {
    && |links| == |names| == |slugsAll|
    && (forall i :: 0 <= i < |names| ==> links[i].name == names[i] && slugsAll[i] == slugify(names[i]))
    && (forall i, j :: 0 <= i < j < |slugsAll| ==> slugsAll[i] != slugsAll[j])
    && |OfType(links, Primary)| <= 1
    && primary == (if OfType(links, Primary) == [] then null else OfType(links, Primary)[0])
    && secondaries == OfType(links, Secondary)
    && monitors == OfType(links, MonitorOnly)
  }

  /** Registering a link whose name and slug are free, and which is not a
      second primary, keeps the registry invariant. */
  lemma RegistryAppend(slugify: string -> string, names: seq<string>, links: seq<Link>, slugsAll: seq<string>,
                       primary: Link?, secondaries: seq<Link>, monitors: seq<Link>, link: Link)
    requires Registry(slugify, names, links, slugsAll, primary, secondaries, monitors)
    requires link.name !in names && slugify(link.name) !in slugsAll
    requires link.linkType == Primary ==> primary == null
    ensures Registry(slugify, names + [link.name], links + [link], slugsAll + [slugify(link.name)],
                     if link.linkType == Primary then link else primary,
                     secondaries + (if link.linkType == Secondary then [link] else []),
                     monitors + (if link.linkType == MonitorOnly then [link] else []))
  {
    OfTypeAppend(links, link, Primary);
    OfTypeAppend(links, link, Secondary);
    OfTypeAppend(links, link, MonitorOnly);
    var slugs := slugsAll + [slugify(link.name)];
    forall i, j | 0 <= i < j < |slugs|
      ensures slugs[i] != slugs[j]
    {
      if j == |slugsAll| {
        assert slugs[i] == slugsAll[i];
      }
    }
  }

  /** Each link in turn is updated with its own observation; afterwards
      none is due before `now`. */
  method UpdateAll(ls: seq<Link>, now: int, inputs: map<string, Observation>, isAddress: string -> bool)
    requires forall i, j :: 0 <= i < j < |ls| ==> ls[i] != ls[j]
    requires forall k :: 0 <= k < |ls| ==> ls[k].kind.DnsLink? ==> |InputFor(inputs, ls[k].name).replies| == ls[k].retries
    modifies set l | l in ls
    ensures forall k :: 0 <= k < |ls| ==> ls[k].View() == old(UpdatedView(ls[k], now, inputs, isAddress))
    ensures forall k :: 0 <= k < |ls| ==> ls[k].nextUpdate >= now
  {
    for i := 0 to |ls|
      invariant forall k :: 0 <= k < i ==> ls[k].View() == old(UpdatedView(ls[k], now, inputs, isAddress))
      invariant forall k :: 0 <= k < i ==> ls[k].nextUpdate >= now
      invariant forall k :: i <= k < |ls| ==> ls[k].View() == old(ls[k].View())
    {
      var link := ls[i];
      UpdateTimeGate(link.Params(), link.View(), now, InputFor(inputs, link.name), isAddress);
      var _ := link.Update(now, InputFor(inputs, link.name), isAddress);
    }
  }

  /** Each link in turn learns its current address. */
  method SetConfiguredAll(ls: seq<Link>)
    requires forall i, j :: 0 <= i < j < |ls| ==> ls[i] != ls[j]
    modifies set l | l in ls
    ensures forall k :: 0 <= k < |ls| ==> ls[k].View() == SetConfigured(ls[k].Params(), old(ls[k].View()))
  {
    for i := 0 to |ls|
      invariant forall k :: 0 <= k < i ==> ls[k].View() == SetConfigured(ls[k].Params(), old(ls[k].View()))
      invariant forall k :: i <= k < |ls| ==> ls[k].View() == old(ls[k].View())
    {
      ls[i].SetConfiguredIp();
    }
  }

  /** Each link in turn forgets its expected address. */
  method ClearConfiguredAll(ls: seq<Link>)
    requires forall i, j :: 0 <= i < j < |ls| ==> ls[i] != ls[j]
    modifies set l | l in ls
    ensures forall k :: 0 <= k < |ls| ==> ls[k].View() == ClearConfigured(ls[k].Params(), old(ls[k].View()))
  {
    for i := 0 to |ls|
      invariant forall k :: 0 <= k < i ==> ls[k].View() == ClearConfigured(ls[k].Params(), old(ls[k].View()))
      invariant forall k :: i <= k < |ls| ==> ls[k].View() == old(ls[k].View())
    {
      ls[i].ClearConfiguredIp();
    }
  }

  /** The coordinator. Its link dictionary is kept as the keys `names` and
      the values `links` in insertion order. */
  class Coordinator {
    const slugify: string -> string
    /** The coordinator's own scan interval, the longest wait between ticks. */
    const baseInterval: nat
    var names: seq<string>
    var links: seq<Link>
    var slugsAll: seq<string>
    var primary: Link?
    var secondaries: seq<Link>
    var monitors: seq<Link>
    var configuredIpUpdated: bool
    var internetStatus: Option<InternetStatus>
    var updateInterval: int

    /** Every link is stored under its own name with its slug beside it,
        slugs (hence names) are unique, and the role lists are the links of
        each role in registration order: at most one primary, the
        secondaries and the monitor-only links. */
    ghost predicate Valid()
      reads this`names, this`links, this`slugsAll, this`primary, this`secondaries, this`monitors
    {
      Registry(slugify, names, links, slugsAll, primary, secondaries, monitors)
    }

    /** Every link is in the role list of its type and in no other. */
    lemma RoleLists()
      requires Valid()
      ensures forall i :: 0 <= i < |links| ==>
        && (links[i].linkType == Primary <==> links[i] == primary)
        && (links[i] in secondaries <==> links[i].linkType == Secondary)
        && (links[i] in monitors <==> links[i].linkType == MonitorOnly)
      ensures primary != null ==> primary in links && primary.linkType == Primary
      ensures forall j :: 0 <= j < |secondaries| ==> secondaries[j] in links && secondaries[j].linkType == Secondary
      ensures forall i, j :: 0 <= i < j < |secondaries| ==> secondaries[i] != secondaries[j]
    {
      OfTypeMembers(links, Primary);
      OfTypeMembers(links, Secondary);
      OfTypeMembers(links, MonitorOnly);
      LinksDistinct();
      OfTypeDistinct(links, Secondary);
      forall i | 0 <= i < |links| && links[i] == primary
        ensures links[i].linkType == Primary
      {
        assert primary == OfType(links, Primary)[0];
      }
      forall i | 0 <= i < |links| && links[i].linkType == Primary
        ensures links[i] == primary
      {
        assert links[i] in OfType(links, Primary);
      }
    }

    /** Distinct keys hold distinct links. */
    lemma LinksDistinct()
      requires Valid()
      ensures forall i, j :: 0 <= i < |links| && 0 <= j < |links| && i != j ==> links[i] != links[j]
    {
      forall i, j | 0 <= i < |links| && 0 <= j < |links| && i != j
        ensures links[i] != links[j]
      {
        if i < j {
          assert slugsAll[i] != slugsAll[j];
        } else {
          assert slugsAll[j] != slugsAll[i];
        }
      }
    }

    /** A coordinator with no links yet; the first tick comes after 3 s. */
    constructor Empty(slugify: string -> string, baseInterval: nat)
      ensures this.slugify == slugify && this.baseInterval == baseInterval
      ensures Valid()
      ensures names == [] && links == [] && slugsAll == []
      ensures primary == null && secondaries == [] && monitors == []
      ensures !configuredIpUpdated && internetStatus == None && updateInterval == 3
    {
      this.slugify := slugify;
      this.baseInterval := baseInterval;
      names := [];
      links := [];
      slugsAll := [];
      primary := null;
      secondaries := [];
      monitors := [];
      configuredIpUpdated := false;
      internetStatus := None;
      updateInterval := 3;
    }

    /** Builds the coordinator of a configuration, or fails when no link
        ends up primary. */
    static method Create(config: Config, slugify: string -> string, now: int) returns (r: Result<Coordinator, string>)
      requires SlugSeparatesDefaults(slugify)
      ensures r.Failure? <==> !exists i :: 0 <= i < |config.links| && Buildable(config.links[i]) && RoleOf(config.links[i]) == Primary
      ensures r.Failure? ==> r.error == "no primary link defined"
      ensures r.Success? ==> fresh(r.value) && r.value.Valid() && r.value.primary != null
      ensures r.Success? ==> r.value.baseInterval == Inherited(config.scanInterval, None, DEFAULT_SCAN_INTERVAL)
      ensures r.Success? ==> |r.value.links| == |Plan(config.links)|
      ensures r.Success? ==> forall k :: 0 <= k < |r.value.links| ==>
        && BuiltFrom(r.value.links[k], Plan(config.links)[k], config)
        && r.value.links[k].View() == InitialView(Plan(config.links)[k].config, now)
    {
      var c := new Coordinator.Empty(slugify, Inherited(config.scanInterval, None, DEFAULT_SCAN_INTERVAL));
      var ok := c.InitLinks(config, now);
      PlanPrimaryIff(config.links);
      if !ok {
        return Failure("no primary link defined");
      }
      return Success(c);
    }

    /** Adds a built link under its name and slug to the role list of its
        type. */
    method Register(link: Link)
      requires Valid()
      requires !Taken(slugify, names, slugsAll, link.name)
      requires link.linkType == Primary ==> primary == null
      modifies this`names, this`links, this`slugsAll, this`primary, this`secondaries, this`monitors
      ensures Valid()
      ensures names == old(names) + [link.name] && links == old(links) + [link]
      ensures slugsAll == old(slugsAll) + [slugify(link.name)]
      ensures primary == if link.linkType == Primary then link else old(primary)
      ensures secondaries == old(secondaries) + (if link.linkType == Secondary then [link] else [])
      ensures monitors == old(monitors) + (if link.linkType == MonitorOnly then [link] else [])
    {
      RegistryAppend(slugify, names, links, slugsAll, primary, secondaries, monitors, link);
      match link.linkType {
        case Primary => primary := link;
        case Secondary => secondaries := secondaries + [link];
        case MonitorOnly => monitors := monitors + [link];
      }
      names := names + [link.name];
      links := links + [link];
      slugsAll := slugsAll + [slugify(link.name)];
    }

    /** `_init_links`: names every configured link, skips those that cannot
        be built, registers the others in order with a second primary
        demoted, and reports whether a primary was found. */
    method InitLinks(config: Config, now: int) returns (ok: bool)
      requires Valid() && SlugSeparatesDefaults(slugify)
      requires names == [] && links == [] && slugsAll == []
      requires primary == null && secondaries == [] && monitors == []
      modifies this`names, this`links, this`slugsAll, this`primary, this`secondaries, this`monitors
      ensures Valid()
      ensures ok <==> primary != null
      ensures ok <==> HasPrimary(Plan(config.links))
      ensures |links| == |Plan(config.links)|
      ensures forall k :: 0 <= k < |links| ==> BuiltFrom(links[k], Plan(config.links)[k], config)
      ensures forall k :: 0 <= k < |links| ==> links[k].View() == InitialView(Plan(config.links)[k].config, now)
    {
      var cs := config.links;
      var linkId: nat := 1;
      var i := 0;
      while i < |cs|
        invariant 0 <= i <= |cs|
        invariant Valid()
        invariant |links| == |Plan(cs[..i])|
        invariant forall k :: 0 <= k < |links| ==> BuiltFrom(links[k], Plan(cs[..i])[k], config)
        invariant forall k :: 0 <= k < |links| ==> links[k].View() == InitialView(Plan(cs[..i])[k].config, now)
        invariant primary != null <==> HasPrimary(Plan(cs[..i]))
        invariant |links| + 1 <= linkId
      {
        var _, _, next := AddLink(cs, i, linkId, config, now);
        linkId := next;
        i := i + 1;
      }
      assert cs[..i] == cs;
      ok := primary != null;
    }

    /** One pass of the construction loop: the `i`-th configuration gets
        the first free name from the counter on and, when buildable, is built
        and registered under it with its role, a primary being demoted when
        one exists; only a registered link moves the counter past its
        number. */
    method AddLink(cs: seq<LinkConfig>, i: nat, linkId: nat, config: Config, now: int)
      returns (name: string, id: nat, nextId: nat)
      requires i < |cs| && cs == config.links
      requires Valid() && SlugSeparatesDefaults(slugify)
      requires |links| == |Plan(cs[..i])|
      requires forall k :: 0 <= k < |links| ==> BuiltFrom(links[k], Plan(cs[..i])[k], config)
      requires forall k :: 0 <= k < |links| ==> links[k].View() == InitialView(Plan(cs[..i])[k].config, now)
      requires primary != null <==> HasPrimary(Plan(cs[..i]))
      modifies this`names, this`links, this`slugsAll, this`primary, this`secondaries, this`monitors
      ensures Valid()
      ensures |links| == |Plan(cs[..i + 1])|
      ensures forall k :: 0 <= k < |links| ==> BuiltFrom(links[k], Plan(cs[..i + 1])[k], config)
      ensures forall k :: 0 <= k < |links| ==> links[k].View() == InitialView(Plan(cs[..i + 1])[k].config, now)
      ensures primary != null <==> HasPrimary(Plan(cs[..i + 1]))
      ensures FirstFree(slugify, old(names), old(slugsAll), cs[i].name, linkId, name, id)
      ensures names == old(names) + (if Buildable(cs[i]) then [name] else [])
      ensures nextId == if Buildable(cs[i]) then id + 1 else id
    {
      name, id := UniqueName(slugify, names, slugsAll, cs[i].name, linkId);
      nextId := id;
      PlanStep(cs, i);
      if Buildable(cs[i]) {
        AddBuilt(cs[i], name, config, now, Plan(cs[..i]));
        nextId := id + 1;
      }
    }

    /** Builds and registers a buildable configuration under a free name,
        demoting it to secondary when a primary exists; the links stay the
        plan `plan` extended by one step. */
    method AddBuilt(c: LinkConfig, name: string, config: Config, now: int, ghost plan: seq<Entry>)
      requires Buildable(c) && Valid() && !Taken(slugify, names, slugsAll, name)
      requires |links| == |plan|
      requires forall k :: 0 <= k < |links| ==> BuiltFrom(links[k], plan[k], config)
      requires forall k :: 0 <= k < |links| ==> links[k].View() == InitialView(plan[k].config, now)
      requires primary != null <==> HasPrimary(plan)
      modifies this`names, this`links, this`slugsAll, this`primary, this`secondaries, this`monitors
      ensures Valid()
      ensures names == old(names) + [name]
      ensures var e := Entry(c, if RoleOf(c) == Primary && HasPrimary(plan) then Secondary else RoleOf(c));
        && |links| == |plan + [e]|
        && (forall k :: 0 <= k < |links| ==> BuiltFrom(links[k], (plan + [e])[k], config))
        && (forall k :: 0 <= k < |links| ==> links[k].View() == InitialView((plan + [e])[k].config, now))
        && (primary != null <==> HasPrimary(plan + [e]))
    {
      var role := RoleOf(c);
      if role == Primary && primary != null {
        role := Secondary;
      }
      ghost var before := links;
      var link := BuildLink(c, name, role, config, now);
      Register(link);
      ghost var e := Entry(c, role);
      forall k | 0 <= k < |links|
        ensures BuiltFrom(links[k], (plan + [e])[k], config)
        ensures links[k].View() == InitialView((plan + [e])[k].config, now)
      {
        if k < |before| {
          assert links[k] == before[k] && (plan + [e])[k] == plan[k];
        }
      }
    }

    /** `set_configured_ip` of the coordinator: the primary and every
        secondary learn their current address; monitor-only links are left
        alone. */
    method SetConfiguredIp()
      requires Valid() && primary != null
      modifies links
      ensures forall k :: 0 <= k < |links| ==>
        links[k].View() == (if links[k].linkType == MonitorOnly then old(links[k].View())
                            else SetConfigured(links[k].Params(), old(links[k].View())))
    {
      RoleLists();
      var ls := [primary] + secondaries;
      SetConfiguredAll(ls);
      forall k | 0 <= k < |links| && links[k].linkType != MonitorOnly
        ensures links[k] in ls
      {
        if links[k].linkType == Secondary {
          assert links[k] in secondaries;
        }
      }
    }

    /** `clear_configured_ip` of the coordinator: the primary and every
        secondary forget their expected address. */
    method ClearConfiguredIp()
      requires Valid() && primary != null
      modifies links
      ensures forall k :: 0 <= k < |links| ==>
        links[k].View() == (if links[k].linkType == MonitorOnly then old(links[k].View())
                            else ClearConfigured(links[k].Params(), old(links[k].View())))
    {
      RoleLists();
      var ls := [primary] + secondaries;
      ClearConfiguredAll(ls);
      forall k | 0 <= k < |links| && links[k].linkType != MonitorOnly
        ensures links[k] in ls
      {
        if links[k].linkType == Secondary {
          assert links[k] in secondaries;
        }
      }
    }

    /** Updates every link once, in insertion order; afterwards no link is
        due before `now`. */
    method UpdateLinks(now: int, inputs: map<string, Observation>, isAddress: string -> bool)
      requires Valid()
      requires forall k :: 0 <= k < |links| ==> links[k].kind.DnsLink? ==> |InputFor(inputs, names[k]).replies| == links[k].retries
      modifies links
      ensures forall k :: 0 <= k < |links| ==> links[k].View() == old(UpdatedView(links[k], now, inputs, isAddress))
      ensures forall k :: 0 <= k < |links| ==> links[k].nextUpdate >= now
      ensures primary != null ==> primary.View() == old(UpdatedView(primary, now, inputs, isAddress))
      ensures Views(secondaries) == old(UpdatedViews(secondaries, now, inputs, isAddress))
    {
      LinksDistinct();
      RoleLists();
      UpdateAll(links, now, inputs, isAddress);
      if primary != null {
        var k :| 0 <= k < |links| && links[k] == primary;
      }
      forall i | 0 <= i < |secondaries|
        ensures secondaries[i].View() == old(UpdatedView(secondaries[i], now, inputs, isAddress))
      {
        var k :| 0 <= k < |links| && links[k] == secondaries[i];
      }
    }

    /** The running minimum of `_async_update_data`: the wait until the
        earliest of the next coordinator scan and every link's next update,
        plus one second. */
    method NextInterval(now: int) returns (interval: int)
      ensures interval <= baseInterval + 1
      ensures forall k :: 0 <= k < |links| ==> interval <= links[k].nextUpdate - now + 1
      ensures interval == baseInterval + 1 || exists k :: 0 <= k < |links| && interval == links[k].nextUpdate - now + 1
    {
      var next := now + baseInterval;
      for i := 0 to |links|
        invariant next <= now + baseInterval
        invariant forall k :: 0 <= k < i ==> next <= links[k].nextUpdate
        invariant next == now + baseInterval || exists k :: 0 <= k < i && next == links[k].nextUpdate
      {
        if links[i].nextUpdate < next {
          next := links[i].nextUpdate;
        }
      }
      interval := next - now + 1;
    }

    /** The first half of `_async_update_data`: every link is updated and
        the status is computed from the updated primary and secondaries. */
    method Refresh(now: int, inputs: map<string, Observation>, isAddress: string -> bool) returns (status: InternetStatus)
      requires Valid() && primary != null
      requires forall k :: 0 <= k < |links| ==> links[k].kind.DnsLink? ==> |InputFor(inputs, names[k]).replies| == links[k].retries
      modifies links
      ensures forall k :: 0 <= k < |links| ==> links[k].View() == old(UpdatedView(links[k], now, inputs, isAddress))
      ensures forall k :: 0 <= k < |links| ==> links[k].nextUpdate >= now
      ensures status == Status(old(UpdatedView(primary, now, inputs, isAddress)),
                               old(UpdatedViews(secondaries, now, inputs, isAddress)))
      ensures StatusAsWritten(old(UpdatedView(primary, now, inputs, isAddress)),
                              old(UpdatedViews(secondaries, now, inputs, isAddress)))
              == if status == Failover then Up else status
    {
      UpdateLinks(now, inputs, isAddress);
      status := Status(primary.View(), Views(secondaries));
    }

    /** The second half of `_async_update_data`: the first "up" status sets
        the learning flag and makes the primary and the secondaries learn
        their addresses (any other status changes no link), the status is
        published, and the next tick is scheduled. */
    method Conclude(status: InternetStatus, now: int)
      requires Valid() && primary != null
      requires forall k :: 0 <= k < |links| ==> links[k].nextUpdate >= now
      modifies this`configuredIpUpdated, this`internetStatus, this`updateInterval, links
      ensures configuredIpUpdated == (old(configuredIpUpdated) || status == Up)
      ensures forall k :: 0 <= k < |links| ==>
        links[k].View() == (if status == Up && !old(configuredIpUpdated) && links[k].linkType != MonitorOnly
                            then SetConfigured(links[k].Params(), old(links[k].View()))
                            else old(links[k].View()))
      ensures internetStatus == Some(status)
      ensures 1 <= updateInterval <= baseInterval + 1
    {
      if status == Up && !configuredIpUpdated {
        configuredIpUpdated := true;
        SetConfiguredIp();
      }
      internetStatus := Some(status);
      updateInterval := NextInterval(now);
    }

    /** `_async_update_data`: updates every link, sets the status from the
        updated primary and secondaries, makes the primary and the
        secondaries learn their addresses the first time the status is
        "up", and schedules the next tick within `baseInterval` + 1 s and
        at least 1 s ahead. The registry is left as it is. */
    method Tick(now: int, inputs: map<string, Observation>, isAddress: string -> bool) returns (status: InternetStatus)
      requires Valid() && primary != null
      requires forall k :: 0 <= k < |links| ==> links[k].kind.DnsLink? ==> |InputFor(inputs, names[k]).replies| == links[k].retries
      modifies this`configuredIpUpdated, this`internetStatus, this`updateInterval, links
      ensures status == Status(old(UpdatedView(primary, now, inputs, isAddress)),
                               old(UpdatedViews(secondaries, now, inputs, isAddress)))
      ensures StatusAsWritten(old(UpdatedView(primary, now, inputs, isAddress)),
                              old(UpdatedViews(secondaries, now, inputs, isAddress)))
              == if status == Failover then Up else status
      ensures internetStatus == Some(status)
      ensures configuredIpUpdated == (old(configuredIpUpdated) || status == Up)
      ensures forall k :: 0 <= k < |links| ==>
        links[k].View() == (if status == Up && !old(configuredIpUpdated) && links[k].linkType != MonitorOnly
                            then SetConfigured(links[k].Params(), old(UpdatedView(links[k], now, inputs, isAddress)))
                            else old(UpdatedView(links[k], now, inputs, isAddress)))
      ensures 1 <= updateInterval <= baseInterval + 1
    {
      status := Refresh(now, inputs, isAddress);
      Conclude(status, now);
    }
  }
}
