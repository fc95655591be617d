/** The original two-link-plus-VPN sensor: each update probes the public
    address seen through the primary and the secondary link and through the
    VPN, derives one overall status and one status per link from a decision
    table, learns the expected ("configured") address of each link while both
    links are up on distinct addresses, and checks the VPN by a reverse
    lookup of its address. DNS and the reverse lookup are inputs. */
module WanCheck {
  import opened Common
  import opened Answers

  /** The status of one link, and of the VPN. */
  datatype LinkStatus = Up | Down | Unknown

  /** The overall status of the sensor. */
  datatype IspStatus =
    | IspUp
    | IspDown
    | DegradedPrimaryDown
    | DegradedSecondaryDown
    | Failover
    | FailoverPrimaryDown
    | FailoverSecondaryDown
    | IspUnknown

  function LinkStatusText(s: LinkStatus): string {
    match s
    case Up => "up"
    case Down => "down"
    case Unknown => "unknown"
  }

  /** The state text of the sensor for each overall status. */
  function IspStatusText(s: IspStatus): string {
    match s
    case IspUp => "up"
    case IspDown => "down"
    case DegradedPrimaryDown => "degraded (primary down)"
    case DegradedSecondaryDown => "degraded (secondary down)"
    case Failover => "failover"
    case FailoverPrimaryDown => "failover (primary down)"
    case FailoverSecondaryDown => "failover (secondary down)"
    case IspUnknown => "unknown"
  }

  /** Distinct statuses are published as distinct texts, so the enums lose
      nothing against the strings the sensor stores. */
  lemma StatusTextsInjective(a: IspStatus, b: IspStatus, x: LinkStatus, y: LinkStatus)
    ensures IspStatusText(a) == IspStatusText(b) ==> a == b
    ensures LinkStatusText(x) == LinkStatusText(y) ==> x == y
  {
    if a != b {
      assert |IspStatusText(a)| != |IspStatusText(b)| || IspStatusText(a)[0] != IspStatusText(b)[0];
    }
    if x != y {
      assert |LinkStatusText(x)| != |LinkStatusText(y)|;
    }
  }

  /** The configured-address option of the configuration: the empty string
      (the default) stands for no address. */
  function NormaliseConfigured(ip: string): (r: Option<string>)
    ensures r == None <==> ip == ""
    ensures r.Some? ==> r.value == ip
    ensures IsTruthy(r) == r.Some?
  {
    if ip == "" then None else Some(ip)
  }

  /** The probe kind a configured probe type names: only "google",
      "opendns" and "akamai" have a probe. */
  function ProbeKind(probeType: string): (k: Option<ProbeType>)
    ensures k.Some? ==> k.value in {Google, OpenDns, Akamai}
    ensures k == Some(Google) <==> probeType == "google"
    ensures k == Some(OpenDns) <==> probeType == "opendns"
    ensures k == Some(Akamai) <==> probeType == "akamai"
  {
    if probeType == "google" then Some(Google)
    else if probeType == "opendns" then Some(OpenDns)
    else if probeType == "akamai" then Some(Akamai)
    else None
  }

  /** `dns_probe` of the sensor: None for a probe type without a probe and
      for any exception, otherwise the decoded last record; it decodes
      exactly as the binary sensor's probe of the same kind does. */
  function SensorAnswer(probeType: string, reply: DnsReply): (r: Option<string>)
    ensures ProbeKind(probeType).None? || reply.DnsError? ==> r == None
    ensures ProbeKind(probeType).Some? ==> r == LegacyAnswer(ProbeKind(probeType).value, reply)
    ensures probeType == "google" && reply.DnsAnswer? && reply.records != [] ==>
      r == Some(DecodeTxt(Last(reply.records)))
  {
    match ProbeKind(probeType)
    case None => None
    case Some(k) => LegacyAnswer(k, reply)
  }

  /** The decision of one update: the overall status and the two link
      statuses. */
  datatype Decision = Decision(isp: IspStatus, primary: LinkStatus, secondary: LinkStatus)

  /** The decision table of `update` over the two probed addresses and the
      two expected addresses. */
  function Table(p: Option<string>, s: Option<string>, pc: Option<string>, sc: Option<string>): (d: Decision)
    ensures d.primary != Unknown && d.secondary != Unknown
  {
    if p == None then
      if s == None then Decision(IspDown, Down, Down) else Decision(DegradedPrimaryDown, Down, Up)
    else if s == None then
      Decision(DegradedSecondaryDown, Up, Down)
    else if p == s then
      if p == sc then Decision(FailoverPrimaryDown, Down, Up)
      else if s == pc then Decision(FailoverSecondaryDown, Up, Down)
      else Decision(Failover, Up, Up)
    else
      Decision(IspUp, Up, Up)
  }

  /** A primary probe without an answer: degraded with the primary down,
      or down with both links down when the secondary has none either. */
  lemma PrimaryDown(s: Option<string>, pc: Option<string>, sc: Option<string>)
    ensures s == None ==> Table(None, s, pc, sc) == Decision(IspDown, Down, Down)
    ensures s != None ==> Table(None, s, pc, sc) == Decision(DegradedPrimaryDown, Down, Up)
  {
  }

  /** An answer on the primary only: degraded with the secondary down. */
  lemma SecondaryDown(ip: string, pc: Option<string>, sc: Option<string>)
    ensures Table(Some(ip), None, pc, sc) == Decision(DegradedSecondaryDown, Up, Down)
  {
  }

  /** Both links see the same address: failover, attributed to the primary
      when the address is the secondary's expected one, else to the
      secondary when it is the primary's expected one. */
  lemma SharedAddress(ip: string, pc: Option<string>, sc: Option<string>)
    ensures var d := Table(Some(ip), Some(ip), pc, sc);
      && (sc == Some(ip) ==> d == Decision(FailoverPrimaryDown, Down, Up))
      && (sc != Some(ip) && pc == Some(ip) ==> d == Decision(FailoverSecondaryDown, Up, Down))
      && (sc != Some(ip) && pc != Some(ip) ==> d == Decision(Failover, Up, Up))
  {
  }

  /** The overall status is up exactly when both links answer with distinct
      addresses; then both links are up, and a link reported down always
      keeps the overall status from being up. The expected addresses only
      matter when the addresses are shared. */
  lemma UpIff(p: Option<string>, s: Option<string>, pc: Option<string>, sc: Option<string>)
    ensures var d := Table(p, s, pc, sc);
      && (d.isp == IspUp <==> p.Some? && s.Some? && p != s)
      && (d.isp == IspUp ==> d.primary == Up && d.secondary == Up)
      && (d.primary == Down || d.secondary == Down ==> d.isp != IspUp)
    ensures forall pc', sc' :: p != s || p == None ==> Table(p, s, pc', sc') == Table(p, s, pc, sc)
  {
  }

  /** The outcome of learning one link's expected address. */
  datatype Learned = Learned(configured: Option<string>, updated: bool)

  /** The learning step of one link: a probed address other than "unknown"
      becomes the expected one; the update flag is raised only when it
      replaces a different expected address. */
  function Learn(current: Option<string>, configured: Option<string>): (l: Learned)
    ensures current.Some? && current.value != "unknown" ==> l.configured == current
    ensures !(current.Some? && current.value != "unknown") ==> l == Learned(configured, false)
    ensures l.updated <==> current.Some? && current.value != "unknown" && configured.Some? && current != configured
  {
    if current != None && current.value != "unknown" then
      if configured == None then Learned(current, false)
      else if current != configured then Learned(current, true)
      else Learned(configured, false)
    else
      Learned(configured, false)
  }

  /** Learning the same address twice changes nothing the second time and
      raises no flag. */
  lemma LearnIdempotent(current: Option<string>, configured: Option<string>)
    ensures Learn(current, Learn(current, configured).configured)
         == Learned(Learn(current, configured).configured, false)
  {
  }

  /** The VPN check: unknown unless a VPN host name is configured and the
      VPN probe gave an address other than "unknown"; then unknown when the
      reverse lookup fails, up when the host name occurs in the PTR name and
      down otherwise. */
  function VpnStatus(vpnHostname: string, natIp: Option<string>, ptr: PtrAnswer): (v: LinkStatus)
    ensures v != Unknown <==> vpnHostname != "" && IsTruthy(natIp) && natIp.value != "unknown" && ptr.PtrName?
    ensures v == Up <==> (vpnHostname != "" && IsTruthy(natIp) && natIp.value != "unknown"
                          && ptr.PtrName? && exists i :: WindowAt(ptr.name, vpnHostname, i))
  {
    if vpnHostname != "" && IsTruthy(natIp) && natIp.value != "unknown" then
      match ptr
      case PtrError => Unknown
      case PtrName(n) => ContainsIffWindow(n, vpnHostname); if Contains(n, vpnHostname) then Up else Down
    else
      Unknown
  }

  /** Everything the sensor stores and publishes. */
  datatype WanState = WanState(
    isp: IspStatus,
    primary: LinkStatus,
    primaryConfigured: Option<string>,
    primaryCurrent: Option<string>,
    primaryIpUpdated: bool,
    secondary: LinkStatus,
    secondaryConfigured: Option<string>,
    secondaryCurrent: Option<string>,
    secondaryIpUpdated: bool,
    vpn: LinkStatus,
    vpnNatIp: Option<string>)

  /** What one update observes: one DNS reply per probe and the reverse
      lookup of the VPN address. */
  datatype WanObservation = WanObservation(primary: DnsReply, secondary: DnsReply, vpn: DnsReply, vpnPtr: PtrAnswer)

  /** The link part of one update: the decision table over the probed
      addresses, then learning only when the overall status is up, with
      both flags lowered otherwise. The VPN part is left as it was. */
  function Decided(st: WanState, p: Option<string>, s: Option<string>): WanState {
    var d := Table(p, s, st.primaryConfigured, st.secondaryConfigured);
    var lp := if d.isp == IspUp then Learn(p, st.primaryConfigured) else Learned(st.primaryConfigured, false);
    var ls := if d.isp == IspUp then Learn(s, st.secondaryConfigured) else Learned(st.secondaryConfigured, false);
    st.(isp := d.isp, primary := d.primary, primaryConfigured := lp.configured, primaryCurrent := p,
        primaryIpUpdated := lp.updated, secondary := d.secondary, secondaryConfigured := ls.configured,
        secondaryCurrent := s, secondaryIpUpdated := ls.updated)
  }

  /** The state after one update from the three probed addresses: the VPN
      check, then the link part. */
  function Next(st: WanState, vpnHostname: string, p: Option<string>, s: Option<string>,
                natIp: Option<string>, ptr: PtrAnswer): WanState
  {
    Decided(st.(vpn := VpnStatus(vpnHostname, natIp, ptr), vpnNatIp := natIp), p, s)
  }

  /** One update stores the probed addresses and the table's statuses; an
      expected address changes only while the overall status is up, and
      each flag says that this update replaced a different expected
      address. */
  lemma NextMeaning(st: WanState, vpnHostname: string, p: Option<string>, s: Option<string>,
                    natIp: Option<string>, ptr: PtrAnswer)
    ensures var n := Next(st, vpnHostname, p, s, natIp, ptr);
      && n.primaryCurrent == p && n.secondaryCurrent == s && n.vpnNatIp == natIp
      && Decision(n.isp, n.primary, n.secondary) == Table(p, s, st.primaryConfigured, st.secondaryConfigured)
      && (n.primaryConfigured != st.primaryConfigured ==> n.isp == IspUp && n.primaryConfigured == p)
      && (n.secondaryConfigured != st.secondaryConfigured ==> n.isp == IspUp && n.secondaryConfigured == s)
      && (n.primaryIpUpdated <==>
            n.isp == IspUp && p.value != "unknown" && st.primaryConfigured.Some? && p != st.primaryConfigured)
      && (n.secondaryIpUpdated <==>
            n.isp == IspUp && s.value != "unknown" && st.secondaryConfigured.Some? && s != st.secondaryConfigured)
      && (n.isp == IspUp && p.value != "unknown" ==> n.primaryConfigured == p)
      && (n.isp == IspUp && s.value != "unknown" ==> n.secondaryConfigured == s)
  {
    UpIff(p, s, st.primaryConfigured, st.secondaryConfigured);
  }

  /** Two updates observing the same addresses: the second changes nothing
      but lowers both flags, and a third changes nothing at all. */
  lemma {:induction false} RepeatedUpdate(st: WanState, vpnHostname: string, p: Option<string>, s: Option<string>,
                                          natIp: Option<string>, ptr: PtrAnswer)
    ensures var n1 := Next(st, vpnHostname, p, s, natIp, ptr);
      var n2 := Next(n1, vpnHostname, p, s, natIp, ptr);
      && n2 == n1.(primaryIpUpdated := false, secondaryIpUpdated := false)
      && Next(n2, vpnHostname, p, s, natIp, ptr) == n2
  {
    var n1 := Next(st, vpnHostname, p, s, natIp, ptr);
    UpIff(p, s, st.primaryConfigured, st.secondaryConfigured);
    UpIff(p, s, n1.primaryConfigured, n1.secondaryConfigured);
    if n1.isp == IspUp {
      LearnIdempotent(p, st.primaryConfigured);
      LearnIdempotent(s, st.secondaryConfigured);
    }
  }

  /** The keys of the attribute dictionary. */
  datatype AttrKey =
    | PrimaryIspStatus
    | PrimaryConfiguredIspIp
    | PrimaryCurrentIspIp
    | PrimaryIspIpUpdated
    | SecondaryIspStatus
    | SecondaryConfiguredIspIp
    | SecondaryCurrentIspIp
    | SecondaryIspIpUpdated
    | VpnStatusKey
    | VpnNatIp

  /** The key strings the sensor publishes. */
  function KeyName(k: AttrKey): string {
    match k
    case PrimaryIspStatus => "primary_isp_status"
    case PrimaryConfiguredIspIp => "primary_configured_isp_ip"
    case PrimaryCurrentIspIp => "primary_current_isp_ip"
    case PrimaryIspIpUpdated => "primary_isp_ip_updated"
    case SecondaryIspStatus => "secondary_isp_status"
    case SecondaryConfiguredIspIp => "secondary_configured_isp_ip"
    case SecondaryCurrentIspIp => "secondary_current_isp_ip"
    case SecondaryIspIpUpdated => "secondary_isp_ip_updated"
    case VpnStatusKey => "vpn_status"
    case VpnNatIp => "vpn_nat_ip"
  }

  /** A value of the attribute dictionary. */
  datatype AttrValue = Text(text: string) | Address(ip: Option<string>) | Flag(flag: bool)

  /** `device_state_attributes`: seven keys always, and the primary current
      address, the secondary expected address and the VPN address only
      while the primary, the secondary and the VPN respectively are up.
      The secondary current address is always there, the primary expected
      address too. */
  function Attributes(st: WanState): (attrs: map<AttrKey, AttrValue>)
    ensures attrs.Keys >= {PrimaryIspStatus, PrimaryConfiguredIspIp, PrimaryIspIpUpdated,
                           SecondaryIspStatus, SecondaryCurrentIspIp, SecondaryIspIpUpdated, VpnStatusKey}
    ensures attrs[PrimaryIspStatus] == Text(LinkStatusText(st.primary))
    ensures attrs[PrimaryConfiguredIspIp] == Address(st.primaryConfigured)
    ensures attrs[PrimaryIspIpUpdated] == Flag(st.primaryIpUpdated)
    ensures attrs[SecondaryIspStatus] == Text(LinkStatusText(st.secondary))
    ensures attrs[SecondaryCurrentIspIp] == Address(st.secondaryCurrent)
    ensures attrs[SecondaryIspIpUpdated] == Flag(st.secondaryIpUpdated)
    ensures attrs[VpnStatusKey] == Text(LinkStatusText(st.vpn))
    ensures PrimaryCurrentIspIp in attrs <==> st.primary == Up
    ensures SecondaryConfiguredIspIp in attrs <==> st.secondary == Up
    ensures VpnNatIp in attrs <==> st.vpn == Up
    ensures PrimaryCurrentIspIp in attrs ==> attrs[PrimaryCurrentIspIp] == Address(st.primaryCurrent)
    ensures SecondaryConfiguredIspIp in attrs ==> attrs[SecondaryConfiguredIspIp] == Address(st.secondaryConfigured)
    ensures VpnNatIp in attrs ==> attrs[VpnNatIp] == Address(st.vpnNatIp)
  {
    var base := map[
      PrimaryIspStatus := Text(LinkStatusText(st.primary)),
      PrimaryConfiguredIspIp := Address(st.primaryConfigured),
      PrimaryIspIpUpdated := Flag(st.primaryIpUpdated),
      SecondaryIspStatus := Text(LinkStatusText(st.secondary)),
      SecondaryCurrentIspIp := Address(st.secondaryCurrent),
      SecondaryIspIpUpdated := Flag(st.secondaryIpUpdated),
      VpnStatusKey := Text(LinkStatusText(st.vpn))];
    var a1 := if st.primary == Up then base[PrimaryCurrentIspIp := Address(st.primaryCurrent)] else base;
    var a2 := if st.secondary == Up then a1[SecondaryConfiguredIspIp := Address(st.secondaryConfigured)] else a1;
    if st.vpn == Up then a2[VpnNatIp := Address(st.vpnNatIp)] else a2
  }

  /** `WanCheckSensor`: the probe settings are fixed; everything `update`
      changes is a field. The probe servers are not modelled (their
      resolution at construction is I/O). */
  class WanCheckSensor {
    const name: string
    const primaryProbeType: string
    const secondaryProbeType: string
    const vpnProbeType: string
    const vpnHostname: string
    var isp: IspStatus
    var primary: LinkStatus
    var primaryConfigured: Option<string>
    var primaryCurrent: Option<string>
    var primaryIpUpdated: bool
    var secondary: LinkStatus
    var secondaryConfigured: Option<string>
    var secondaryCurrent: Option<string>
    var secondaryIpUpdated: bool
    var vpn: LinkStatus
    var vpnNatIp: Option<string>

    function State(): WanState
      reads this
    {
      WanState(isp, primary, primaryConfigured, primaryCurrent, primaryIpUpdated,
               secondary, secondaryConfigured, secondaryCurrent, secondaryIpUpdated, vpn, vpnNatIp)
    }

    /** A new sensor: every status unknown except the VPN, which starts
        down; no address probed, no flag raised. */
    constructor(name: string, primaryProbeType: string, primaryConfigured: Option<string>,
                secondaryProbeType: string, secondaryConfigured: Option<string>,
                vpnProbeType: string, vpnHostname: string)
      ensures this.name == name && this.vpnHostname == vpnHostname
      ensures this.primaryProbeType == primaryProbeType && this.secondaryProbeType == secondaryProbeType
      ensures this.vpnProbeType == vpnProbeType
      ensures State() == WanState(IspUnknown, Unknown, primaryConfigured, None, false,
                                  Unknown, secondaryConfigured, None, false, Down, None)
    {
      this.name := name;
      this.primaryProbeType := primaryProbeType;
      this.secondaryProbeType := secondaryProbeType;
      this.vpnProbeType := vpnProbeType;
      this.vpnHostname := vpnHostname;
      this.primaryConfigured := primaryConfigured;
      this.secondaryConfigured := secondaryConfigured;
      isp := IspUnknown;
      primary := Unknown;
      primaryCurrent := None;
      primaryIpUpdated := false;
      secondary := Unknown;
      secondaryCurrent := None;
      secondaryIpUpdated := false;
      vpn := Down;
      vpnNatIp := None;
    }

    /** `setup_platform`: the configured addresses of the configuration are
        normalised before the sensor is built. */
    static method Setup(name: string, primaryProbeType: string, primaryConfigured: string,
                        secondaryProbeType: string, secondaryConfigured: string,
                        vpnProbeType: string, vpnHostname: string)
      returns (sensor: WanCheckSensor)
      ensures fresh(sensor)
      ensures sensor.primaryConfigured == NormaliseConfigured(primaryConfigured)
      ensures sensor.secondaryConfigured == NormaliseConfigured(secondaryConfigured)
      ensures sensor.isp == IspUnknown && sensor.vpn == Down
    {
      sensor := new WanCheckSensor(name, primaryProbeType, NormaliseConfigured(primaryConfigured),
                                   secondaryProbeType, NormaliseConfigured(secondaryConfigured),
                                   vpnProbeType, vpnHostname);
    }

    /** `dns_probe`: the record loop of the named probe kind, or None. */
    static method DnsProbe(probeType: string, reply: DnsReply) returns (ip: Option<string>)
      ensures ip == SensorAnswer(probeType, reply)
    {
      ip := None;
      var kind := ProbeKind(probeType);
      if kind.Some? {
        ip := LegacyDnsProbe(kind.value, reply);
      }
    }

    /** `update`: probe the three addresses, check the VPN, then decide
        the link statuses and learn the expected addresses. */
    method Update(obs: WanObservation)
      modifies this
      ensures State() == Next(old(State()), vpnHostname,
                              SensorAnswer(primaryProbeType, obs.primary),
                              SensorAnswer(secondaryProbeType, obs.secondary),
                              SensorAnswer(vpnProbeType, obs.vpn), obs.vpnPtr)
    {
      var p := DnsProbe(primaryProbeType, obs.primary);
      var s := DnsProbe(secondaryProbeType, obs.secondary);
      var n := DnsProbe(vpnProbeType, obs.vpn);
      CheckVpn(n, obs.vpnPtr);
      Decide(p, s);
    }

    /** The VPN part of `update`: unknown unless the check can be made. */
    method CheckVpn(natIp: Option<string>, ptr: PtrAnswer)
      modifies this`vpn, this`vpnNatIp
      ensures State() == old(State()).(vpn := VpnStatus(vpnHostname, natIp, ptr), vpnNatIp := natIp)
    {
      vpnNatIp := natIp;
      vpn := Unknown;
      if vpnHostname != "" {
        if vpnNatIp.Some? && vpnNatIp.value != "" && vpnNatIp.value != "unknown" {
          match ptr
          case PtrError =>
          case PtrName(n) =>
            vpn := if Contains(n, vpnHostname) then Up else Down;
        }
      }
    }

    /** The link part of `update`: statuses reset to up and flags lowered,
        then the decision table, and learning when both links are up on
        distinct addresses. */
    method Decide(p: Option<string>, s: Option<string>)
      modifies this`isp, this`primary, this`primaryConfigured, this`primaryCurrent, this`primaryIpUpdated
      modifies this`secondary, this`secondaryConfigured, this`secondaryCurrent, this`secondaryIpUpdated
      ensures State() == Decided(old(State()), p, s)
    {
      ghost var before := State();
      primaryCurrent := p;
      secondaryCurrent := s;
      isp := IspUp;
      primary := Up;
      secondary := Up;
      primaryIpUpdated := false;
      secondaryIpUpdated := false;

      if primaryCurrent == None {
        isp := DegradedPrimaryDown;
        primary := Down;
        if secondaryCurrent == None {
          isp := IspDown;
          secondary := Down;
        }
      } else if secondaryCurrent == None {
        isp := DegradedSecondaryDown;
        secondary := Down;
      } else if primaryCurrent == secondaryCurrent {
        isp := Failover;
        if primaryCurrent == secondaryConfigured {
          isp := FailoverPrimaryDown;
          primary := Down;
        } else if secondaryCurrent == primaryConfigured {
          isp := FailoverSecondaryDown;
          secondary := Down;
        }
      } else {
        LearnAddresses();
        assert Table(p, s, before.primaryConfigured, before.secondaryConfigured).isp == IspUp;
      }
    }

    /** The learning branch of `update`: each probed address other than
        "unknown" becomes the expected one, raising the link's flag when it
        replaces a different one. */
    method LearnAddresses()
      modifies this`primaryConfigured, this`primaryIpUpdated, this`secondaryConfigured, this`secondaryIpUpdated
      requires !primaryIpUpdated && !secondaryIpUpdated
      ensures Learned(primaryConfigured, primaryIpUpdated) == Learn(primaryCurrent, old(primaryConfigured))
      ensures Learned(secondaryConfigured, secondaryIpUpdated) == Learn(secondaryCurrent, old(secondaryConfigured))
    {
      if primaryCurrent != None && primaryCurrent.value != "unknown" {
        if primaryConfigured == None {
          primaryConfigured := primaryCurrent;
        } else if primaryCurrent != primaryConfigured {
          primaryConfigured := primaryCurrent;
          primaryIpUpdated := true;
        }
      }
      if secondaryCurrent != None && secondaryCurrent.value != "unknown" {
        if secondaryConfigured == None {
          secondaryConfigured := secondaryCurrent;
        } else if secondaryCurrent != secondaryConfigured {
          secondaryConfigured := secondaryCurrent;
          secondaryIpUpdated := true;
        }
      }
    }

    /** `state`: the text of the overall status. */
    function StateText(): (t: string)
      reads this
      ensures t == "up" <==> isp == IspUp
    {
      IspStatusText(isp)
    }
  }
}
