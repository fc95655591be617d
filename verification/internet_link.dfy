/** The links of the current engine: one monitored uplink each, probed
    either by reading a file or by asking a "what is my address" DNS
    service. A link probes only when it is due, keeps the address of the
    last successful attempt and the round-trip samples of the cycle, and
    derives a three-valued `linkUp`: up, down, or reachable on an unexpected
    address (None). */
module InternetLinks {
  import opened Common
  import opened Answers

  /** The DNS services of the class map from probe kind to link class. */
  datatype DnsService = GoogleDns | OpenDnsDns | AkamaiDns

  /** How a link is probed: a file link or a DNS link of one service. */
  datatype LinkKind = FileLink | DnsLink(service: DnsService)

  /** The settings of a link, fixed when the link is built. */
  datatype LinkParams = LinkParams(
    kind: LinkKind,
    scanInterval: nat,
    reverseHostname: Option<string>,
    configuredIpSet: bool,
    retries: nat)

  /** The state of a link that its methods change. */
  datatype LinkView = LinkView(
    linkUp: Option<bool>,
    nextUpdate: int,
    reverseOk: Option<bool>,
    configuredIp: Option<string>,
    currentIp: Option<string>,
    rtt: Option<real>,
    rttArray: Option<seq<real>>,
    rttUpdateInterval: Option<nat>,
    rttNextUpdate: Option<int>)

  /** The address one DNS answer yields: Google decodes every TXT record and
      the last one wins; OpenDNS and Akamai take the first A record. */
  function ServiceAnswer(service: DnsService, records: seq<string>): (r: Option<string>)
    ensures records == [] <==> r == None
    ensures records != [] && service == GoogleDns ==> r == Some(DecodeTxt(Last(records)))
    ensures records != [] && service != GoogleDns ==> r == Some(records[0])
  {
    if records == [] then None
    else if service == GoogleDns then Some(DecodeTxt(Last(records)))
    else Some(records[0])
  }

  /** One attempt of a DNS link: a DNS exception yields nothing. */
  function AttemptOf(service: DnsService, reply: DnsReply): Attempt {
    match reply
    case DnsError => Attempt(None, 0.0)
    case DnsAnswer(records, elapsedMs) => Attempt(ServiceAnswer(service, records), elapsedMs)
  }

  function Attempts(service: DnsService, replies: seq<DnsReply>): (atts: seq<Attempt>)
    ensures |atts| == |replies|
  {
    seq(|replies|, i requires 0 <= i < |replies| => AttemptOf(service, replies[i]))
  }

  lemma AttemptsPrefix(service: DnsService, replies: seq<DnsReply>, i: nat)
    requires i < |replies|
    ensures Attempts(service, replies[..i + 1])
         == Attempts(service, replies[..i]) + [AttemptOf(service, replies[i])]
  {
    assert Attempts(service, replies[..i + 1])[..i] == Attempts(service, replies[..i]);
  }

  /** The verdict of a probe: down without an address, up when no address
      is expected or the expected one was seen, unknown otherwise. */
  function Verdict(current: Option<string>, configured: Option<string>): (up: Option<bool>)
    ensures up == Some(false) <==> current == None
    ensures up == Some(true) <==> current.Some? && (configured == None || configured == current)
    ensures up == None <==> current.Some? && configured.Some? && configured != current
  {
    if current == None then Some(false)
    else if configured == None || current == configured then Some(true)
    else None
  }

  /** The reverse check of the current engine: the expected host name must
      occur in the PTR name; a failed lookup fails the check. */
  function ReverseMatches(hostname: string, ptr: PtrAnswer): (ok: bool)
    ensures ptr.PtrError? ==> !ok
    ensures ptr.PtrName? ==> (ok <==> exists i :: WindowAt(ptr.name, hostname, i))
  {
    match ptr
    case PtrError => false
    case PtrName(name) => ContainsIffWindow(name, hostname); Contains(name, hostname)
  }

  /** The state after a file probe: the stripped text is the address if it
      is one, and the first address seen becomes the configured one. */
  function FileProbed(v: LinkView, content: string, isAddress: string -> bool): LinkView {
    var ip := RStrip(content);
    if !isAddress(ip) then v.(currentIp := None)
    else v.(currentIp := Some(ip), configuredIp := if v.configuredIp == None then Some(ip) else v.configuredIp)
  }

  /** The state after the attempts of a DNS probe: the address of the last
      successful attempt, one sample per success and their mean. */
  function DnsProbed(service: DnsService, v: LinkView, replies: seq<DnsReply>): LinkView {
    var atts := Attempts(service, replies);
    v.(currentIp := LastIp(atts), rttArray := Some(Successes(atts)), rtt := Mean(Successes(atts)))
  }

  function Probed(p: LinkParams, v: LinkView, obs: Observation, isAddress: string -> bool): LinkView {
    match p.kind
    case FileLink => FileProbed(v, obs.fileContent, isAddress)
    case DnsLink(service) => DnsProbed(service, v, obs.replies)
  }

  /** One update of a link at time `now`: nothing happens before the link is
      due; a due link probes, is due again `scanInterval` later, takes the
      probe's verdict and, for a DNS link that came up with a reverse host
      name, records the reverse check. */
  function Updated(p: LinkParams, v: LinkView, now: int, obs: Observation, isAddress: string -> bool): LinkView {
    if now < v.nextUpdate then v
    else
      var w := Probed(p, v, obs, isAddress);
      var up := Verdict(w.currentIp, w.configuredIp);
      var u := w.(nextUpdate := now + p.scanInterval, linkUp := up);
      if p.kind.DnsLink? && up == Some(true) && p.reverseHostname.Some?
      then u.(reverseOk := Some(ReverseMatches(p.reverseHostname.value, obs.ptr)))
      else u
  }

  /** `set_configured_ip` of a link: unless the address came from the
      configuration, the current address (when known) becomes the expected
      one and an unknown verdict becomes up. */
  function SetConfigured(p: LinkParams, v: LinkView): LinkView {
    if p.configuredIpSet then v
    else v.(configuredIp := if v.currentIp.Some? then v.currentIp else v.configuredIp,
            linkUp := if v.linkUp == None then Some(true) else v.linkUp)
  }

  /** `clear_configured_ip` of a link: unless the address came from the
      configuration, no address is expected any more and an unknown verdict
      becomes up. */
  function ClearConfigured(p: LinkParams, v: LinkView): LinkView {
    if p.configuredIpSet then v
    else v.(configuredIp := None, linkUp := if v.linkUp == None then Some(true) else v.linkUp)
  }

  /** An update that finds the link not due changes nothing; one that probes
      schedules the next probe `scanInterval` after `now`. */
  lemma {:induction false} UpdateTimeGate(p: LinkParams, v: LinkView, now: int, obs: Observation, isAddress: string -> bool)
    ensures now < v.nextUpdate ==> Updated(p, v, now, obs, isAddress) == v
    ensures v.nextUpdate <= now ==> Updated(p, v, now, obs, isAddress).nextUpdate == now + p.scanInterval
    ensures Updated(p, v, now, obs, isAddress).nextUpdate >= v.nextUpdate
    ensures Updated(p, v, now, obs, isAddress).nextUpdate >= now
    ensures p.scanInterval > 0 ==> Updated(p, v, now, obs, isAddress).nextUpdate > now
  {
  }

  /** A second update at the same instant is a no-op, whatever it would
      observe. */
  lemma UpdateOncePerInstant(p: LinkParams, v: LinkView, now: int, obs: Observation, obs': Observation, isAddress: string -> bool)
    requires p.scanInterval > 0
    ensures Updated(p, Updated(p, v, now, obs, isAddress), now, obs', isAddress) == Updated(p, v, now, obs, isAddress)
  {
    UpdateTimeGate(p, v, now, obs, isAddress);
  }

  /** After a probe, a link without an address is down and a link that is
      down has no address; a link is unknown only with an address that
      differs from the expected one. */
  lemma ProbedVerdictConsistent(p: LinkParams, v: LinkView, now: int, obs: Observation, isAddress: string -> bool)
    requires v.nextUpdate <= now
    ensures var u := Updated(p, v, now, obs, isAddress);
      && (u.currentIp == None <==> u.linkUp == Some(false))
      && (u.linkUp == None <==> u.currentIp.Some? && u.configuredIp.Some? && u.configuredIp != u.currentIp)
  {
  }

  /** A DNS probe reports the address of the last successful attempt, one
      sample per success, and an rtt exactly when some attempt succeeded;
      the rtt then lies between the fastest and the slowest sample. */
  lemma DnsProbeOutcome(service: DnsService, v: LinkView, replies: seq<DnsReply>, lo: real, hi: real)
    requires forall i :: 0 <= i < |replies| && replies[i].DnsAnswer? ==> lo <= replies[i].elapsedMs <= hi
    ensures var w := DnsProbed(service, v, replies);
      && (w.currentIp == None <==> forall i :: 0 <= i < |replies| ==> AttemptOf(service, replies[i]).ip == None)
      && (w.currentIp == None <==> w.rtt == None)
      && (w.rtt.Some? ==> lo <= w.rtt.value <= hi)
  {
    var atts := Attempts(service, replies);
    assert forall i :: 0 <= i < |replies| ==> atts[i] == AttemptOf(service, replies[i]);
    LastIpIsLastSuccess(atts);
    var samples := Successes(atts);
    if samples != [] {
      SamplesBounded(atts, lo, hi);
      MeanWithinBounds(samples, lo, hi);
    }
  }

  lemma {:induction false} SamplesBounded(atts: seq<Attempt>, lo: real, hi: real)
    requires forall i :: 0 <= i < |atts| && atts[i].ip.Some? ==> lo <= atts[i].elapsedMs <= hi
    ensures forall k :: 0 <= k < |Successes(atts)| ==> lo <= Successes(atts)[k] <= hi
    decreases |atts|
  {
    if atts != [] {
      SamplesBounded(atts[..|atts| - 1], lo, hi);
    }
  }

  /** An illustration only, covered in general by DnsProbeOutcome and
      MeanWithinBounds: three successful attempts of 10, 20 and 30 ms give
      the samples [10, 20, 30] and an rtt of 20 ms. */
  lemma RttExample(service: DnsService, v: LinkView, ip: string)
    ensures var r := [DnsAnswer([ip], 10.0), DnsAnswer([ip], 20.0), DnsAnswer([ip], 30.0)];
      var w := DnsProbed(service, v, r);
      w.rttArray == Some([10.0, 20.0, 30.0]) && w.rtt == Some(20.0)
  {
    var r := [DnsAnswer([ip], 10.0), DnsAnswer([ip], 20.0), DnsAnswer([ip], 30.0)];
    var a1, a2, a3 := AttemptOf(service, r[0]), AttemptOf(service, r[1]), AttemptOf(service, r[2]);
    assert Attempts(service, r) == [a1] + [a2] + [a3];
    AttemptAppended([], a1);
    AttemptAppended([a1], a2);
    AttemptAppended([a1] + [a2], a3);
    assert Successes(Attempts(service, r)) == [10.0, 20.0, 30.0];
    var samples: seq<real> := [10.0, 20.0, 30.0];
    assert samples[..2] == [10.0, 20.0] && samples[..2][..1] == [10.0] && samples[..2][..1][..0] == [];
    assert Sum(samples[..2][..1]) == 10.0;
    assert Sum(samples[..2]) == 30.0;
    assert Sum(samples) == 60.0;
  }

  /** A file link learns the first address it reads and is then up on that
      address; a later different address makes it unknown. */
  lemma FileProbeLearns(v: LinkView, content: string, isAddress: string -> bool)
    requires isAddress(RStrip(content))
    ensures var w := FileProbed(v, content, isAddress);
      && w.currentIp == Some(RStrip(content))
      && (v.configuredIp == None ==> w.configuredIp == w.currentIp)
      && (Verdict(w.currentIp, w.configuredIp) == Some(true) <==> v.configuredIp in {None, Some(RStrip(content))})
  {
  }

  /** The configured-IP commands leave an address from the configuration
      alone; setting twice is setting once; after setting, a probe that sees
      the same address is up; after clearing, no probe is unknown. */
  lemma ConfiguredIpCommands(p: LinkParams, v: LinkView)
    ensures p.configuredIpSet ==> SetConfigured(p, v) == v && ClearConfigured(p, v) == v
    ensures SetConfigured(p, SetConfigured(p, v)) == SetConfigured(p, v)
    ensures ClearConfigured(p, ClearConfigured(p, v)) == ClearConfigured(p, v)
    ensures !p.configuredIpSet && v.currentIp.Some? ==>
      Verdict(v.currentIp, SetConfigured(p, v).configuredIp) == Some(true)
    ensures !p.configuredIpSet ==> forall ip :: Verdict(Some(ip), ClearConfigured(p, v).configuredIp) == Some(true)
    ensures !p.configuredIpSet ==> SetConfigured(p, v).linkUp != None && ClearConfigured(p, v).linkUp != None
  {
  }

  /** An Internet link of the current engine. The settings are constants;
      `View()` is the state its methods change. */
  class Link {
    const name: string
    const linkType: LinkType
    const kind: LinkKind
    const probeTarget: Option<string>
    const scanInterval: nat
    const reverseHostname: Option<string>
    const configuredIpSet: bool
    const retries: nat
    const timeout: real
    var linkUp: Option<bool>
    var nextUpdate: int
    var reverseOk: Option<bool>
    var configuredIp: Option<string>
    var currentIp: Option<string>
    var rtt: Option<real>
    var rttArray: Option<seq<real>>
    var rttUpdateInterval: Option<nat>
    var rttNextUpdate: Option<int>

    function Params(): LinkParams {
      LinkParams(kind, scanInterval, reverseHostname, configuredIpSet, retries)
    }

    function View(): LinkView
      reads this
    {
      LinkView(linkUp, nextUpdate, reverseOk, configuredIp, currentIp, rtt, rttArray,
               rttUpdateInterval, rttNextUpdate)
    }

    /** A file-probe link: nothing is expected yet and it is due at once. */
    constructor File(linkType: LinkType, name: string, probeTarget: Option<string>, scanInterval: nat, now: int)
      ensures this.name == name && this.linkType == linkType && kind == FileLink
      ensures this.probeTarget == probeTarget && this.scanInterval == scanInterval
      ensures reverseHostname == None && !configuredIpSet
      ensures retries == DEFAULT_RETRIES && timeout == DEFAULT_TIMEOUT
      ensures View() == LinkView(None, now, None, None, None, None, None, None, None)
    {
      this.name := name;
      this.linkType := linkType;
      this.kind := FileLink;
      this.probeTarget := probeTarget;
      this.scanInterval := scanInterval;
      this.reverseHostname := None;
      this.configuredIpSet := false;
      this.retries := DEFAULT_RETRIES;
      this.timeout := DEFAULT_TIMEOUT;
      linkUp := None;
      nextUpdate := now;
      reverseOk := None;
      configuredIp := None;
      currentIp := None;
      rtt := None;
      rttArray := None;
      rttUpdateInterval := None;
      rttNextUpdate := None;
    }

    /** A DNS-probe link. A configured address that is truthy is marked as
        coming from the configuration, so the commands never replace it. */
    constructor Dns(linkType: LinkType, name: string, service: DnsService, probeHost: string,
                    scanInterval: nat, reverseHostname: Option<string>, configuredIp: Option<string>,
                    retries: nat, timeout: real, now: int)
      ensures this.name == name && this.linkType == linkType && kind == DnsLink(service)
      ensures probeTarget == Some(probeHost) && this.scanInterval == scanInterval
      ensures this.reverseHostname == reverseHostname
      ensures configuredIpSet <==> IsTruthy(configuredIp)
      ensures this.retries == retries && this.timeout == timeout
      ensures View() == LinkView(None, now, None, configuredIp, None, None, None, None, None)
    {
      this.name := name;
      this.linkType := linkType;
      this.kind := DnsLink(service);
      this.probeTarget := Some(probeHost);
      this.scanInterval := scanInterval;
      this.reverseHostname := reverseHostname;
      this.configuredIpSet := IsTruthy(configuredIp);
      this.retries := retries;
      this.timeout := timeout;
      linkUp := None;
      nextUpdate := now;
      reverseOk := None;
      this.configuredIp := configuredIp;
      currentIp := None;
      rtt := None;
      rttArray := None;
      rttUpdateInterval := None;
      rttNextUpdate := None;
    }

    /** Turns on RTT reporting with the given interval, due at once. */
    method EnableRtt(updateInterval: nat, now: int)
      modifies this
      ensures View() == old(View()).(rttUpdateInterval := Some(updateInterval), rttNextUpdate := Some(now))
    {
      rttUpdateInterval := Some(updateInterval);
      rttNextUpdate := Some(now);
    }

    method SetConfiguredIp()
      modifies this
      ensures View() == SetConfigured(Params(), old(View()))
    {
      if !configuredIpSet {
        if currentIp.Some? {
          configuredIp := currentIp;
        }
        if linkUp == None {
          linkUp := Some(true);
        }
      }
    }

    method ClearConfiguredIp()
      modifies this
      ensures View() == ClearConfigured(Params(), old(View()))
    {
      if !configuredIpSet {
        configuredIp := None;
        if linkUp == None {
          linkUp := Some(true);
        }
      }
    }

    /** The probe of a file link: reads the stripped file text and returns
        the verdict. */
    method ProbeFile(content: string, isAddress: string -> bool) returns (up: Option<bool>)
      requires kind == FileLink
      modifies this
      ensures View() == FileProbed(old(View()), content, isAddress)
      ensures up == Verdict(currentIp, configuredIp)
    {
      var ip := RStrip(content);
      if !isAddress(ip) {
        currentIp := None;
        return Some(false);
      }
      currentIp := Some(ip);
      if configuredIp == None {
        configuredIp := Some(ip);
      }
      up := Verdict(currentIp, configuredIp);
    }

    /** One DNS query of this link's service. */
    method SendDnsProbe(records: seq<string>) returns (ip: Option<string>)
      requires kind.DnsLink?
      ensures ip == ServiceAnswer(kind.service, records)
    {
      if kind.service == GoogleDns {
        ip := LastTxtAnswer(records);
      } else {
        ip := None;
        if records != [] {
          ip := Some(records[0]);
        }
      }
    }

    /** The retry loop of a DNS link: `retries` attempts, each one a DNS
        reply; a successful attempt replaces the address and adds its
        elapsed time to the samples. */
    method ProbeDns(replies: seq<DnsReply>) returns (up: Option<bool>)
      requires kind.DnsLink? && |replies| == retries
      modifies this
      ensures View() == DnsProbed(kind.service, old(View()), replies)
      ensures up == Verdict(currentIp, configuredIp)
    {
      var current: Option<string> := None;
      rttArray := Some([]);
      var i := 0;
      while i < |replies|
        invariant 0 <= i <= |replies|
        invariant current == LastIp(Attempts(kind.service, replies[..i]))
        invariant rttArray == Some(Successes(Attempts(kind.service, replies[..i])))
        invariant View() == old(View()).(rttArray := rttArray)
      {
        AttemptsPrefix(kind.service, replies, i);
        AttemptAppended(Attempts(kind.service, replies[..i]), AttemptOf(kind.service, replies[i]));
        match replies[i] {
          case DnsError =>
          case DnsAnswer(records, elapsedMs) =>
            var probeIp := SendDnsProbe(records);
            if probeIp.Some? {
              current := probeIp;
              rttArray := Some(rttArray.value + [elapsedMs]);
            }
        }
        i := i + 1;
      }
      assert replies[..i] == replies;
      rtt := Mean(rttArray.value);
      currentIp := current;
      up := Verdict(currentIp, configuredIp);
    }

    /** `async_update`: probes when due and reports whether it did. */
    method Update(now: int, obs: Observation, isAddress: string -> bool) returns (updated: bool)
      requires kind.DnsLink? ==> |obs.replies| == retries
      modifies this
      ensures updated <==> old(nextUpdate) <= now
      ensures View() == Updated(Params(), old(View()), now, obs, isAddress)
    {
      if nextUpdate <= now {
        var up: Option<bool>;
        if kind == FileLink {
          up := ProbeFile(obs.fileContent, isAddress);
        } else {
          up := ProbeDns(obs.replies);
        }
        nextUpdate := now + scanInterval;
        linkUp := up;
        if kind.DnsLink? && linkUp == Some(true) && reverseHostname.Some? {
          reverseOk := Some(ReverseMatches(reverseHostname.value, obs.ptr));
        }
        return true;
      }
      return false;
    }
  }
}
