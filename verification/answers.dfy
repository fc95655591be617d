/** What a probe observes and how an observation is decoded into a public
    address. The network is not modelled: one DNS query is an oracle value
    (`DnsReply`), one reverse lookup another (`PtrAnswer`), and a probe file
    is its text. */
module Answers {
  import opened Common

  /** One DNS query: the resolver raised a DNS exception, or it answered
      with records (TXT strings or A-record addresses) after `elapsedMs`
      milliseconds. */
  datatype DnsReply = DnsError | DnsAnswer(records: seq<string>, elapsedMs: real)

  /** One reverse (PTR) lookup of an address: an exception, or the first
      name of the answer. */
  datatype PtrAnswer = PtrError | PtrName(name: string)

  /** Everything one update of a link may observe: the probe file's text,
      one DNS reply per attempt, and the reverse lookup of the address. */
  datatype Observation = Observation(fileContent: string, replies: seq<DnsReply>, ptr: PtrAnswer)

  /** One probe attempt after decoding: the address it yielded (if any) and
      how long it took. */
  datatype Attempt = Attempt(ip: Option<string>, elapsedMs: real)

  /** The prefix of a Google TXT answer that reports the client subnet
      instead of the client address. */
  const EDNS_PREFIX: string := "edns0-client-subnet"

  function Last(xs: seq<string>): string
    requires xs != []
  {
    xs[|xs| - 1]
  }

  /** Decoding of one Google TXT record: an edns answer is cut as
      `txt[20:-3]` (the separator after the prefix and the 3-character mask
      suffix go), any other text is the address itself. */
  function DecodeTxt(txt: string): (r: string)
    ensures !(EDNS_PREFIX <= txt) ==> r == txt
    ensures EDNS_PREFIX <= txt && |txt| > 23 ==> r == txt[20..|txt| - 3]
    ensures EDNS_PREFIX <= txt && |txt| <= 23 ==> r == ""
  {
    if EDNS_PREFIX <= txt then PySlice(txt, 20, -3) else txt
  }

  /** An edns answer "edns0-client-subnet <subnet>/<mask>" with a 2-digit
      mask decodes to the subnet address. */
  lemma EdnsRoundTrip(sep: char, subnet: string, mask: string)
    requires |mask| == 3
    ensures DecodeTxt(EDNS_PREFIX + [sep] + subnet + mask) == subnet
  {
    var txt := EDNS_PREFIX + [sep] + subnet + mask;
    assert EDNS_PREFIX <= txt;
    if |txt| > 23 {
      assert txt[20..|txt| - 3] == subnet;
    } else {
      assert subnet == [];
    }
  }

  /** The TXT loop of the Google probe: every record is decoded and the
      last record wins. */
  method LastTxtAnswer(records: seq<string>) returns (ip: Option<string>)
    ensures records == [] ==> ip == None
    ensures records != [] ==> ip == Some(DecodeTxt(Last(records)))
  {
    ip := None;
    for i := 0 to |records|
      invariant i == 0 ==> ip == None
      invariant i > 0 ==> ip == Some(DecodeTxt(records[i - 1]))
    {
      ip := Some(DecodeTxt(records[i]));
    }
  }

  /** The A-record loop without `break`: the last address wins. */
  method LastAddressAnswer(records: seq<string>) returns (ip: Option<string>)
    ensures records == [] ==> ip == None
    ensures records != [] ==> ip == Some(Last(records))
  {
    ip := None;
    for i := 0 to |records|
      invariant i == 0 ==> ip == None
      invariant i > 0 ==> ip == Some(records[i - 1])
    {
      ip := Some(records[i]);
    }
  }

  /** `send_dns_probe` of the binary sensor and `dns_probe` of the original
      sensor: a DNS exception or a probe kind without a DNS probe gives None;
      Google takes the decoded last TXT record, OpenDNS and Akamai the last
      A record. */
  function LegacyAnswer(probeType: ProbeType, reply: DnsReply): (r: Option<string>)
    ensures reply.DnsError? ==> r == None
    ensures probeType !in {Google, OpenDns, Akamai} ==> r == None
    ensures reply.DnsAnswer? && reply.records == [] ==> r == None
    ensures r.Some? && probeType == Google ==> r.value == DecodeTxt(Last(reply.records))
    ensures r.Some? && probeType != Google ==> r.value == Last(reply.records)
  {
    match reply
    case DnsError => None
    case DnsAnswer(records, _) =>
      if records == [] then None
      else match probeType
        case Google => Some(DecodeTxt(Last(records)))
        case OpenDns => Some(Last(records))
        case Akamai => Some(Last(records))
        case _ => None
  }

  method LegacyDnsProbe(probeType: ProbeType, reply: DnsReply) returns (ip: Option<string>)
    ensures ip == LegacyAnswer(probeType, reply)
  {
    ip := None;
    match reply
    case DnsError =>
    case DnsAnswer(records, _) =>
      if probeType == Google {
        ip := LastTxtAnswer(records);
      } else if probeType == OpenDns || probeType == Akamai {
        ip := LastAddressAnswer(records);
      }
  }

  /** `file_probe` of the binary sensor: the right-stripped file text, where
      the text "None" stands for no address. */
  function FileAnswer(content: string): (r: Option<string>)
    ensures r == None <==> RStrip(content) == "None"
    ensures r.Some? ==> r.value == RStrip(content)
  {
    var text := RStrip(content);
    if text == "None" then None else Some(text)
  }

  /** Writing an address line (plus trailing whitespace) into the probe
      file and probing reads the address back. */
  lemma FileAnswerRoundTrip(ip: string, pad: string)
    requires ip != "None"
    requires ip == [] || !IsSpace(ip[|ip| - 1])
    requires forall i :: 0 <= i < |pad| ==> IsSpace(pad[i])
    ensures FileAnswer(ip + pad) == Some(ip)
  {
    RStripAppended(ip, pad);
  }

  /** The address of the last successful attempt, or None. */
  function LastIp(atts: seq<Attempt>): Option<string>
    decreases |atts|
  {
    if atts == [] then None
    else if atts[|atts| - 1].ip.Some? then atts[|atts| - 1].ip
    else LastIp(atts[..|atts| - 1])
  }

  /** The elapsed times of the successful attempts, in attempt order. */
  function Successes(atts: seq<Attempt>): seq<real>
    decreases |atts|
  {
    if atts == [] then []
    else
      var last := atts[|atts| - 1];
      Successes(atts[..|atts| - 1]) + (if last.ip.Some? then [last.elapsedMs] else [])
  }

  /** One more attempt: it replaces the address if it succeeded, and adds
      exactly one sample if it succeeded. */
  lemma AttemptAppended(atts: seq<Attempt>, a: Attempt)
    ensures LastIp(atts + [a]) == if a.ip.Some? then a.ip else LastIp(atts)
    ensures a.ip.Some? ==> Successes(atts + [a]) == Successes(atts) + [a.elapsedMs]
    ensures a.ip.None? ==> Successes(atts + [a]) == Successes(atts)
  {
    assert (atts + [a])[..|atts|] == atts;
    assert Successes(atts) + [] == Successes(atts);
  }

  /** The address is None exactly when every attempt failed, which is
      exactly when there is no sample; otherwise it comes from a successful
      attempt after which every attempt failed. */
  lemma {:induction false} LastIpIsLastSuccess(atts: seq<Attempt>)
    ensures LastIp(atts) == None <==> forall i :: 0 <= i < |atts| ==> atts[i].ip == None
    ensures LastIp(atts) == None <==> Successes(atts) == []
    ensures LastIp(atts).Some? ==>
      exists i :: 0 <= i < |atts| && atts[i].ip == LastIp(atts)
        && forall j :: i < j < |atts| ==> atts[j].ip == None
    decreases |atts|
  {
    if atts != [] {
      var init := atts[..|atts| - 1];
      LastIpIsLastSuccess(init);
      if atts[|atts| - 1].ip == None {
        assert forall i :: 0 <= i < |init| ==> init[i] == atts[i];
        if LastIp(atts).Some? {
          var i :| 0 <= i < |init| && init[i].ip == LastIp(init)
            && forall j :: i < j < |init| ==> init[j].ip == None;
          assert atts[i].ip == LastIp(atts);
        }
      } else {
        assert atts[|atts| - 1].ip == LastIp(atts);
      }
    }
  }
}
