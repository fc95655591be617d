/** The per-link binary sensor of the second engine: one probe per update,
    then a state machine over the link's up/failover flags and its expected
    ("configured") and observed ("current") public address. Time, the probe
    file, DNS and the reverse lookup are inputs. */
module LinkStatusSensor {
  import opened Common
  import opened Answers

  /** The four fields an update compares before deciding to write. */
  datatype SensorState = SensorState(
    linkUp: Option<bool>,
    failover: bool,
    configuredIp: Option<string>,
    currentIp: Option<string>)

  /** What the probe of one update publishes to the link's rtt sensor: the
      mean of the samples (None without samples) and the samples. */
  datatype RttReport = RttReport(rtt: Option<real>, samples: seq<real>)

  /** The reverse check: None when the lookup fails, otherwise whether the
      expected host name occurs in the PTR name. */
  function ReverseCheck(hostname: string, ptr: PtrAnswer): (ok: Option<bool>)
    ensures ok == None <==> ptr.PtrError?
    ensures ok == Some(true) <==> ptr.PtrName? && exists i :: WindowAt(ptr.name, hostname, i)
  {
    match ptr
    case PtrError => None
    case PtrName(n) => ContainsIffWindow(n, hostname); Some(Contains(n, hostname))
  }

  /** The verdict of a new address before the failover rules: the reverse
      check when a host name is configured, up otherwise. */
  function FirstVerdict(reverseHostname: Option<string>, ptr: PtrAnswer): Option<bool> {
    if IsTruthy(reverseHostname) then ReverseCheck(reverseHostname.value, ptr) else Some(true)
  }

  /** The decision of `update` from the stored state and the probed address:
      no address means down; an unchanged address is down exactly while
      failed over; a new address is checked in reverse and then a monitor-only
      link without an expected address learns it, a failed-over link
      recovers on its expected address and stays down on any other, and a
      link that sees an address other than the expected one fails over. */
  function Decide(s: SensorState, probed: Option<string>, monitorOnly: bool,
                  reverseHostname: Option<string>, ptr: PtrAnswer): (r: SensorState)
    ensures r.currentIp == probed
    ensures r.configuredIp == s.configuredIp || (s.configuredIp == None && r.configuredIp == probed)
  {
    if probed.None? then
      SensorState(Some(false), s.failover, s.configuredIp, None)
    else if probed != s.currentIp then
      var up := FirstVerdict(reverseHostname, ptr);
      if IsTrue(up) && monitorOnly && s.configuredIp == None then
        SensorState(up, s.failover, probed, probed)
      else if IsTrue(up) && s.failover then
        if probed == s.configuredIp then SensorState(up, false, s.configuredIp, probed)
        else SensorState(Some(false), true, s.configuredIp, probed)
      else if IsTrue(up) && IsTruthy(s.configuredIp) && probed != s.configuredIp then
        SensorState(Some(false), true, s.configuredIp, probed)
      else
        SensorState(up, s.failover, s.configuredIp, probed)
    else
      SensorState(Some(!s.failover), s.failover, s.configuredIp, probed)
  }

  /** A failed probe always leaves the link down, keeping the failover flag
      and the expected address. */
  lemma Unreachable(s: SensorState, monitorOnly: bool, reverseHostname: Option<string>, ptr: PtrAnswer)
    ensures Decide(s, None, monitorOnly, reverseHostname, ptr) == s.(linkUp := Some(false), currentIp := None)
  {
  }

  /** The same address as before: up exactly when not failed over, nothing
      else changes, and the reverse lookup is not consulted. */
  lemma SameAddress(s: SensorState, monitorOnly: bool, reverseHostname: Option<string>, ptr: PtrAnswer, ptr': PtrAnswer)
    requires s.currentIp.Some?
    ensures Decide(s, s.currentIp, monitorOnly, reverseHostname, ptr) == s.(linkUp := Some(!s.failover))
    ensures Decide(s, s.currentIp, monitorOnly, reverseHostname, ptr)
         == Decide(s, s.currentIp, monitorOnly, reverseHostname, ptr')
  {
  }

  /** The failover rules for a new address that passed the reverse check:
      a different address than the expected one fails the link over; the
      expected address clears a failover; any other keeps it down. */
  lemma FailoverTransitions(s: SensorState, ip: string, monitorOnly: bool, reverseHostname: Option<string>, ptr: PtrAnswer)
    requires Some(ip) != s.currentIp
    requires FirstVerdict(reverseHostname, ptr) == Some(true)
    ensures !s.failover && IsTruthy(s.configuredIp) && Some(ip) != s.configuredIp ==>
      Decide(s, Some(ip), monitorOnly, reverseHostname, ptr) == SensorState(Some(false), true, s.configuredIp, Some(ip))
    ensures s.failover && Some(ip) == s.configuredIp ==>
      Decide(s, Some(ip), monitorOnly, reverseHostname, ptr) == SensorState(Some(true), false, s.configuredIp, Some(ip))
    ensures s.failover && s.configuredIp.Some? && Some(ip) != s.configuredIp ==>
      Decide(s, Some(ip), monitorOnly, reverseHostname, ptr) == SensorState(Some(false), true, s.configuredIp, Some(ip))
  {
  }

  /** A new address that fails the reverse check (or whose lookup fails)
      gives that verdict and changes neither flag nor expected address. */
  lemma ReverseCheckFailed(s: SensorState, ip: string, monitorOnly: bool, reverseHostname: Option<string>, ptr: PtrAnswer)
    requires Some(ip) != s.currentIp
    requires FirstVerdict(reverseHostname, ptr) != Some(true)
    ensures Decide(s, Some(ip), monitorOnly, reverseHostname, ptr)
         == SensorState(FirstVerdict(reverseHostname, ptr), s.failover, s.configuredIp, Some(ip))
  {
  }

  /** Only a monitor-only link without an expected address learns one, from
      a new address that passed the reverse check; the expected address
      never changes otherwise. */
  lemma LearnsOnlyWhenMonitoring(s: SensorState, probed: Option<string>, monitorOnly: bool, reverseHostname: Option<string>, ptr: PtrAnswer)
    ensures Decide(s, probed, monitorOnly, reverseHostname, ptr).configuredIp != s.configuredIp <==>
      && monitorOnly && s.configuredIp == None && probed.Some? && probed != s.currentIp
      && FirstVerdict(reverseHostname, ptr) == Some(true)
  {
  }

  /** A link that reports up has an address; a link that reports up and is
      not failed over after a new address has either no expected address
      or sees it. */
  lemma UpHasAddress(s: SensorState, probed: Option<string>, monitorOnly: bool, reverseHostname: Option<string>, ptr: PtrAnswer)
    ensures var r := Decide(s, probed, monitorOnly, reverseHostname, ptr);
      IsTrue(r.linkUp) ==> r.currentIp.Some?
    ensures var r := Decide(s, probed, monitorOnly, reverseHostname, ptr);
      IsTrue(r.linkUp) && !r.failover && probed != s.currentIp ==>
        !IsTruthy(r.configuredIp) || r.configuredIp == r.currentIp
  {
  }

  /** Two updates that probe the same address settle the state: a third
      one decides the same state again, so it writes nothing. */
  lemma {:induction false} SettlesAfterTwo(s: SensorState, probed: Option<string>, monitorOnly: bool, reverseHostname: Option<string>, ptr: PtrAnswer)
    ensures var s1 := Decide(s, probed, monitorOnly, reverseHostname, ptr);
      var s2 := Decide(s1, probed, monitorOnly, reverseHostname, ptr);
      Decide(s2, probed, monitorOnly, reverseHostname, ptr) == s2
  {
    var s1 := Decide(s, probed, monitorOnly, reverseHostname, ptr);
    var s2 := Decide(s1, probed, monitorOnly, reverseHostname, ptr);
    if probed.Some? {
      SameAddress(s1, monitorOnly, reverseHostname, ptr, ptr);
      SameAddress(s2, monitorOnly, reverseHostname, ptr, ptr);
    }
  }

  /** One probe attempt of the binary sensor: the decoded answer, and the
      reply's round-trip time when there was an answer. */
  /** The value of `link_up and not link_failover` in Python: `None` while
      the link state is unknown, `False` for a link that is down, and the
      negated failover flag for a link that is up. */
  function OnValue(s: SensorState): (on: Option<bool>)
    ensures on == None <==> s.linkUp == None
    ensures on == Some(true) <==> s.linkUp == Some(true) && !s.failover
    ensures s.linkUp == Some(false) ==> on == Some(false)
  {
    match s.linkUp
    case None => None
    case Some(up) => Some(up && !s.failover)
  }

  function LegacyAttempt(probeType: ProbeType, reply: DnsReply): Attempt {
    match reply
    case DnsError => Attempt(None, 0.0)
    case DnsAnswer(_, elapsedMs) => Attempt(LegacyAnswer(probeType, reply), elapsedMs)
  }

  function LegacyAttempts(probeType: ProbeType, replies: seq<DnsReply>): (atts: seq<Attempt>)
    ensures |atts| == |replies|
  {
    seq(|replies|, i requires 0 <= i < |replies| => LegacyAttempt(probeType, replies[i]))
  }

  lemma LegacyAttemptsPrefix(probeType: ProbeType, replies: seq<DnsReply>, i: nat)
    requires i < |replies|
    ensures LegacyAttempts(probeType, replies[..i + 1])
         == LegacyAttempts(probeType, replies[..i]) + [LegacyAttempt(probeType, replies[i])]
  {
    assert LegacyAttempts(probeType, replies[..i + 1])[..i] == LegacyAttempts(probeType, replies[..i]);
  }

  /** The address an update probes: the probe file's answer for a file
      link, the last successful DNS answer otherwise. */
  function ProbedAddress(probeType: ProbeType, obs: Observation): Option<string> {
    if probeType == File then FileAnswer(obs.fileContent)
    else LastIp(LegacyAttempts(probeType, obs.replies))
  }

  /** `LinkStatusBinarySensor`: the link's role and probe settings are
      fixed; `State()` is what `update` compares and writes. */
  class LinkSensor {
    const name: string
    const linkType: LinkType
    const probeType: ProbeType
    const retries: nat
    const reverseHostname: Option<string>
    var updated: bool
    var linkUp: Option<bool>
    var failover: bool
    var configuredIp: Option<string>
    var currentIp: Option<string>
    var ipLastUpdated: Option<int>

    function State(): SensorState
      reads this
    {
      SensorState(linkUp, failover, configuredIp, currentIp)
    }

    /** A new sensor: not yet updated, state unknown, not failed over, with
        the configured address as given. */
    constructor(name: string, linkType: LinkType, probeType: ProbeType, retries: nat,
                reverseHostname: Option<string>, configuredIp: Option<string>)
      ensures this.name == name && this.linkType == linkType && this.probeType == probeType
      ensures this.retries == retries && this.reverseHostname == reverseHostname
      ensures State() == SensorState(None, false, configuredIp, None)
      ensures !updated && ipLastUpdated == None
    {
      this.name := name;
      this.linkType := linkType;
      this.probeType := probeType;
      this.retries := retries;
      this.reverseHostname := reverseHostname;
      updated := false;
      this.configuredIp := configuredIp;
      currentIp := None;
      linkUp := None;
      failover := false;
      ipLastUpdated := None;
    }

    /** `is_on`: unknown while `link_up` is unknown, otherwise on exactly
        when up and not failed over. */
    function IsOn(): (on: Option<bool>)
      reads this
      ensures on == None <==> linkUp == None
      ensures on == Some(true) <==> linkUp == Some(true) && !failover
    {
      OnValue(State())
    }

    /** `dns_probe`: `retries` attempts; the address is that of the last
        successful one, each success adds one sample in order, and the rtt
        reported is the mean of the samples. Changes nothing. */
    method DnsProbe(replies: seq<DnsReply>) returns (ip: Option<string>, report: RttReport)
      requires |replies| == retries
      ensures ip == LastIp(LegacyAttempts(probeType, replies))
      ensures report.samples == Successes(LegacyAttempts(probeType, replies))
      ensures report.rtt == Mean(report.samples)
      ensures ip == None <==> report.samples == []
    {
      ip := None;
      var samples: seq<real> := [];
      for count := 0 to retries
        invariant ip == LastIp(LegacyAttempts(probeType, replies[..count]))
        invariant samples == Successes(LegacyAttempts(probeType, replies[..count]))
      {
        LegacyAttemptsPrefix(probeType, replies, count);
        AttemptAppended(LegacyAttempts(probeType, replies[..count]), LegacyAttempt(probeType, replies[count]));
        var probeIp := LegacyDnsProbe(probeType, replies[count]);
        if probeIp != None {
          ip := probeIp;
          samples := samples + [replies[count].elapsedMs];
        }
      }
      assert replies[..retries] == replies;
      LastIpIsLastSuccess(LegacyAttempts(probeType, replies));
      report := RttReport(Mean(samples), samples);
    }

    /** The probe of `update`: the probe file for a file link, otherwise
        `dns_probe`, whose rtt report goes to the link's rtt sensor. */
    method Probe(obs: Observation) returns (probed: Option<string>, report: Option<RttReport>)
      requires probeType != File ==> |obs.replies| == retries
      ensures probed == ProbedAddress(probeType, obs)
      ensures report.None? <==> probeType == File
      ensures report.Some? ==>
        && report.value.samples == Successes(LegacyAttempts(probeType, obs.replies))
        && report.value.rtt == Mean(report.value.samples)
    {
      if probeType == File {
        probed := FileAnswer(obs.fileContent);
        report := None;
      } else {
        var r;
        probed, r := DnsProbe(obs.replies);
        report := Some(r);
      }
    }

    /** `update`: probes, decides the new state, and writes it unless
        nothing changed on an already updated sensor. The time of the last
        address change is taken whenever a new address is seen. */
    method Update(now: int, obs: Observation) returns (wrote: bool, report: Option<RttReport>)
      requires probeType != File ==> |obs.replies| == retries
      modifies this
      ensures var next := Decide(old(State()), ProbedAddress(probeType, obs), linkType == MonitorOnly,
                                 reverseHostname, obs.ptr);
        && State() == next
        && (wrote <==> !(next == old(State()) && old(updated)))
      ensures updated
      ensures var probed := ProbedAddress(probeType, obs);
        ipLastUpdated == if probed.Some? && probed != old(currentIp) then Some(now) else old(ipLastUpdated)
      ensures report.None? <==> probeType == File
      ensures report.Some? ==>
        && report.value.samples == Successes(LegacyAttempts(probeType, obs.replies))
        && report.value.rtt == Mean(report.value.samples)
    {
      var probed;
      probed, report := Probe(obs);
      wrote := Apply(now, probed, obs.ptr);
    }

    /** The state machine of `update` for a probed address. */
    method Apply(now: int, probed: Option<string>, ptr: PtrAnswer) returns (wrote: bool)
      modifies this
      ensures var next := Decide(old(State()), probed, linkType == MonitorOnly, reverseHostname, ptr);
        && State() == next
        && (wrote <==> !(next == old(State()) && old(updated)))
      ensures updated
      ensures ipLastUpdated == if probed.Some? && probed != old(currentIp) then Some(now) else old(ipLastUpdated)
    {
      var configured := configuredIp;
      var up: Option<bool> := Some(true);
      var fo := failover;
      var monitor := linkType == MonitorOnly;
      if probed == None || currentIp != probed {
        if probed != None {
          ipLastUpdated := Some(now);
          if IsTruthy(reverseHostname) {
            up := ReverseCheck(reverseHostname.value, ptr);
          }
          if IsTrue(up) && monitor && configured == None {
            configured := probed;
          } else if IsTrue(up) && fo {
            if probed == configured {
              fo := false;
            } else {
              up := Some(false);
            }
          } else if IsTrue(up) && IsTruthy(configured) && probed != configured {
            up := Some(false);
            fo := true;
          }
        } else {
          up := Some(false);
        }
      } else if fo {
        up := Some(false);
      }
      if linkUp == up && configuredIp == configured && currentIp == probed && failover == fo && updated {
        return false;
      }
      linkUp := up;
      failover := fo;
      configuredIp := configured;
      currentIp := probed;
      updated := true;
      wrote := true;
    }

    /** `set_failover`: marks the link failed over; the state is published
        only when the flag changes on an updated sensor. */
    method SetFailover() returns (published: bool)
      modifies this`failover
      ensures State() == old(State()).(failover := true)
      ensures published <==> !old(failover) && updated
    {
      published := false;
      if !failover {
        failover := true;
        published := updated;
      }
    }

    /** `clear_failover`: clears the failover mark; published only when the
        flag changes on an updated sensor. */
    method ClearFailover() returns (published: bool)
      modifies this`failover
      ensures State() == old(State()).(failover := false)
      ensures published <==> old(failover) && updated
    {
      published := false;
      if failover {
        failover := false;
        published := updated;
      }
    }

    /** `set_configured_ip`: takes the current address as expected when none
        is expected, or, when forced, when the expected one differs; the
        address change time is taken when an expected address is replaced. */
    method SetConfiguredIp(force: bool, now: int) returns (published: bool)
      modifies this`configuredIp, this`ipLastUpdated
      ensures var taken := old(configuredIp) == None || (force && old(configuredIp) != old(currentIp));
        && State() == old(State()).(configuredIp := if taken then old(currentIp) else old(configuredIp))
        && ipLastUpdated == (if taken && old(configuredIp).Some? then Some(now) else old(ipLastUpdated))
        && (published <==> taken && updated)
    {
      var configured := configuredIp;
      published := false;
      if configured == None || (force && configured != currentIp) {
        configuredIp := currentIp;
        if configured != None {
          ipLastUpdated := Some(now);
        }
        published := updated;
      }
    }
  }

  /** The configured-address command changes the expected address exactly
      when none is expected and there is a current one, or when forced and
      they differ; afterwards a second call changes nothing more. */
  lemma ConfiguredIpCommand(s: SensorState, force: bool)
    ensures var taken := s.configuredIp == None || (force && s.configuredIp != s.currentIp);
      var c := if taken then s.currentIp else s.configuredIp;
      && (c != s.configuredIp <==> (s.configuredIp == None && s.currentIp.Some?) || (force && s.configuredIp != s.currentIp))
      && (var taken2 := c == None || (force && c != s.currentIp);
          (if taken2 then s.currentIp else c) == c)
  {
  }

  /** After any update, a sensor that is on has an address, and a sensor
      that probed no address is off (never unknown). */
  lemma IsOnAfterUpdate(s: SensorState, probed: Option<string>, monitorOnly: bool, reverseHostname: Option<string>, ptr: PtrAnswer)
    ensures var r := Decide(s, probed, monitorOnly, reverseHostname, ptr);
      && (OnValue(r) == Some(true) ==> probed.Some?)
      && (probed.None? ==> OnValue(r) == Some(false))
  {
  }
}
