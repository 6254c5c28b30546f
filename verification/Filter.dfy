/** internal/filter/filter.go: the inbound packet filter of the receiving node. */
module Filter {
  import opened Prelude
  import opened Numerals
  import opened Net

  const ICMP4: nat := 1
  const TCP: nat := 6
  const UDP: nat := 17
  const ICMP6: nat := 58

  /** Inclusive. */
  datatype PortRange = PortRange(first: nat, last: nat)

  /** Empty srcs: any source; empty ports: every port. */
  datatype Rule = Rule(allow: bool, srcs: seq<Prefix>, proto: string, ports: seq<PortRange>)

  datatype RuleSet = RuleSet(enabled: bool, rules: seq<Rule>)

  // ---------------------------------------------------------------- wire form

  /** The CIDR text "addr/bits"; netip.ParsePrefix rejects too many bits. */
  datatype Cidr = Cidr(addr: Addr, bits: nat)

  datatype WireRule = WireRule(allow: bool, srcCidrs: seq<Cidr>, protocol: string, dstPorts: seq<PortRange>)

  function ParsePrefix(c: Cidr): Option<Prefix> {
    if c.bits <= Width(c.addr) then Some(Prefix(c.addr, c.bits)) else None
  }

  function ParsedPrefixes(cs: seq<Cidr>): seq<Prefix> {
    if cs == [] then []
    else
      var p := ParsePrefix(cs[|cs| - 1]);
      ParsedPrefixes(cs[..|cs| - 1]) + if p.Some? then [p.value] else []
  }

  /** Ports travel as 32-bit numbers and are cut to 16. */
  function Cut16(p: PortRange): PortRange {
    PortRange(p.first % 0x1_0000, p.last % 0x1_0000)
  }

  function CutAll(ps: seq<PortRange>): seq<PortRange> {
    seq(|ps|, i requires 0 <= i < |ps| => Cut16(ps[i]))
  }

  function Convert(w: WireRule): Rule {
    Rule(w.allow, ParsedPrefixes(w.srcCidrs), w.protocol, CutAll(w.dstPorts))
  }

  function ConvertAll(ws: seq<WireRule>): seq<Rule> {
    seq(|ws|, i requires 0 <= i < |ws| => Convert(ws[i]))
  }

  /** FromProto: convert rule by rule, dropping what does not parse. */
  method FromProto(rules: seq<WireRule>, enabled: bool) returns (f: RuleSet)
    ensures f == RuleSet(enabled, ConvertAll(rules))
  {
    var out: seq<Rule> := [];
    for i := 0 to |rules|
      invariant |out| == i && forall k :: 0 <= k < i ==> out[k] == Convert(rules[k])
    {
      var w := rules[i];
      var srcs: seq<Prefix> := [];
      for j := 0 to |w.srcCidrs|
        invariant srcs == ParsedPrefixes(w.srcCidrs[..j])
      {
        assert w.srcCidrs[..j + 1][..j] == w.srcCidrs[..j];
        var p := ParsePrefix(w.srcCidrs[j]);
        if p.Some? { srcs := srcs + [p.value]; }
      }
      assert w.srcCidrs[..|w.srcCidrs|] == w.srcCidrs;
      var ports: seq<PortRange> := [];
      for j := 0 to |w.dstPorts|
        invariant |ports| == j && forall k :: 0 <= k < j ==> ports[k] == Cut16(w.dstPorts[k])
      {
        ports := ports + [Cut16(w.dstPorts[j])];
      }
      var r := Rule(w.allow, srcs, w.protocol, ports);
      assert r.ports == Convert(w).ports;
      out := out + [r];
    }
    f := RuleSet(enabled, out);
    assert f.rules == ConvertAll(rules);
  }

  lemma {:induction false} ParsedPrefixesIff(cs: seq<Cidr>, p: Prefix)
    ensures p in ParsedPrefixes(cs) <==> Cidr(p.addr, p.bits) in cs && p.bits <= Width(p.addr)
  {
    if cs != [] {
      var n := |cs| - 1;
      ParsedPrefixesIff(cs[..n], p);
      assert cs == cs[..n] + [cs[n]];
    }
  }

  /** A converted rule names the sources that parse and the ports in their low 16 bits. */
  lemma ConvertMeaning(w: WireRule, p: Prefix, port: nat)
    ensures p in Convert(w).srcs <==> Cidr(p.addr, p.bits) in w.srcCidrs && p.bits <= Width(p.addr)
    ensures InRanges(Convert(w).ports, port)
       <==> exists r :: r in w.dstPorts && r.first % 0x1_0000 <= port <= r.last % 0x1_0000
    ensures Convert(w).allow == w.allow && (Convert(w).ports == [] <==> w.dstPorts == [])
  {
    ParsedPrefixesIff(w.srcCidrs, p);
    var cut := Convert(w).ports;
    if r :| r in cut && r.first <= port <= r.last {
      var i :| 0 <= i < |cut| && cut[i] == r;
      assert w.dstPorts[i] in w.dstPorts && cut[i] == Cut16(w.dstPorts[i]);
    }
    if r :| r in w.dstPorts && r.first % 0x1_0000 <= port <= r.last % 0x1_0000 {
      var i :| 0 <= i < |w.dstPorts| && w.dstPorts[i] == r;
      assert cut[i] == Cut16(r) && cut[i] in cut;
    }
  }

  // ---------------------------------------------------------------- evaluation

  predicate MatchesSrc(r: Rule, src: Addr) {
    r.srcs == [] || exists p :: p in r.srcs && p.bits <= Width(p.addr) && Contains(p, src)
  }

  predicate MatchesProto(name: string, proto: nat) {
    || name == ""
    || (name == "tcp" && proto == TCP)
    || (name == "udp" && proto == UDP)
    || (name == "icmp" && (proto == ICMP4 || proto == ICMP6))
  }

  predicate InRanges(ports: seq<PortRange>, port: nat) {
    exists pr :: pr in ports && pr.first <= port <= pr.last
  }

  /** A rule with ports never matches a portless protocol. */
  predicate MatchesPort(r: Rule, proto: nat, port: nat) {
    r.ports == [] || ((proto == TCP || proto == UDP) && InRanges(r.ports, port))
  }

  predicate Matches(r: Rule, src: Addr, proto: nat, port: nat) {
    MatchesProto(r.proto, proto) && MatchesSrc(r, src) && MatchesPort(r, proto, port)
  }

  /** First match wins; no match is a deny. */
  predicate Allows(rules: seq<Rule>, src: Addr, proto: nat, port: nat) {
    if rules == [] then false
    else if Matches(rules[0], src, proto, port) then rules[0].allow
    else Allows(rules[1..], src, proto, port)
  }

  /** The verdict is that of some rule before which nothing matches, or deny. */
  lemma {:induction false} FirstMatchWins(rules: seq<Rule>, src: Addr, proto: nat, port: nat, k: nat)
    requires k <= |rules|
    requires forall i :: 0 <= i < k ==> !Matches(rules[i], src, proto, port)
    ensures k < |rules| && Matches(rules[k], src, proto, port) ==> (Allows(rules, src, proto, port) <==> rules[k].allow)
    ensures k == |rules| ==> !Allows(rules, src, proto, port)
  {
    if k > 0 {
      FirstMatchWins(rules[1..], src, proto, port, k - 1);
    }
  }

  /** The protocol number the dry-run tester stands for. */
  function ProtoNumber(name: string, src: Addr): Option<nat> {
    if name == "tcp" then Some(TCP)
    else if name == "udp" then Some(UDP)
    else if name == "icmp" then Some(if src.V6? then ICMP6 else ICMP4)
    else None
  }

  predicate Check(f: Option<RuleSet>, src: Addr, name: string, port: nat) {
    if f.None? || !f.value.enabled then true
    else
      var proto := ProtoNumber(name, src);
      proto.Some? && Allows(f.value.rules, src, proto.value, port)
  }

  // ---------------------------------------------------------------- packets

  datatype Parsed = Parsed(src: Addr, proto: nat, port: nat)

  function Word(pkt: seq<byte>, i: nat): nat
    requires i + 2 <= |pkt|
  {
    BigEndian(pkt[i..i + 2])
  }

  function Parse(pkt: seq<byte>): Option<Parsed> {
    if |pkt| < 1 then None
    else if pkt[0] / 16 == 4 then ParseV4(pkt)
    else if pkt[0] / 16 == 6 then ParseV6(pkt)
    else None
  }

  function ParseV4(pkt: seq<byte>): Option<Parsed>
    requires |pkt| >= 1
  {
    if |pkt| < 20 then None
    else
      var ihl := pkt[0] as int % 16 * 4;
      if ihl < 20 || |pkt| < ihl then None
      else
        var proto: int := pkt[9];
        var src := V4(BigEndian(pkt[12..16]));
        var ported := proto == TCP || proto == UDP;
        if ported && |pkt| < ihl + 4 then None
        else
          var port := if ported then Word(pkt, ihl + 2) else 0;
          var frag := Word(pkt, 6) % 0x2000;
          Some(Parsed(src, proto, if frag != 0 then 0 else port))
  }

  function ParseV6(pkt: seq<byte>): Option<Parsed>
    requires |pkt| >= 1
  {
    if |pkt| < 40 then None
    else
      var proto: int := pkt[6];
      var src := V6(BigEndian(pkt[8..24]));
      var ported := proto == TCP || proto == UDP;
      if ported && |pkt| < 44 then None
      else Some(Parsed(src, proto, if ported then Word(pkt, 42) else 0))
  }

  /** A whole IPv4 header, and the ports where the protocol has them. */
  predicate WholeV4(pkt: seq<byte>) {
    && |pkt| >= 20 && pkt[0] / 16 == 4 && pkt[0] % 16 >= 5 && |pkt| >= 4 * (pkt[0] % 16)
    && (pkt[9] == 6 || pkt[9] == 17 ==> |pkt| >= 4 * (pkt[0] % 16) + 4)
  }

  predicate WholeV6(pkt: seq<byte>) {
    |pkt| >= 40 && pkt[0] / 16 == 6 && (pkt[6] == 6 || pkt[6] == 17 ==> |pkt| >= 44)
  }

  /** A filter in force drops whatever is neither. */
  lemma TornPacketsAreDropped(f: RuleSet, pkt: seq<byte>)
    requires f.enabled
    ensures Parse(pkt).Some? <==> WholeV4(pkt) || WholeV6(pkt)
    ensures AllowsPacket(Some(f), pkt) ==> WholeV4(pkt) || WholeV6(pkt)
  {
  }

  predicate AllowsPacket(f: Option<RuleSet>, pkt: seq<byte>) {
    if f.None? || !f.value.enabled then true
    else
      var p := Parse(pkt);
      p.Some? && Allows(f.value.rules, p.value.src, p.value.proto, p.value.port)
  }

  // ------------------------------------------------- packets as the standards lay them out

  /** The fields of an IPv4 header (section 3.1 of RFC 791). */
  datatype V4Header = V4Header(tos: byte, totalLen: nat, ident: nat, flags: nat, frag: nat, ttl: byte,
                               proto: byte, checksum: nat, src: nat, dst: nat, options: seq<byte>)

  predicate GoodHeader(h: V4Header) {
    && h.totalLen < 0x1_0000 && h.ident < 0x1_0000 && h.flags < 8 && h.frag < 0x2000 && h.checksum < 0x1_0000
    && h.src < Pow256(4) && h.dst < Pow256(4)
    && |h.options| % 4 == 0 && |h.options| <= 40
  }

  function V4HeaderBytes(h: V4Header): (b: seq<byte>)
    requires GoodHeader(h)
    ensures |b| == 20 + |h.options|
  {
    [0x45 + |h.options| / 4, h.tos] + ToBytes(h.totalLen, 2) + ToBytes(h.ident, 2)
    + ToBytes(h.flags * 0x2000 + h.frag, 2) + [h.ttl, h.proto] + ToBytes(h.checksum, 2)
    + ToBytes(h.src, 4) + ToBytes(h.dst, 4) + h.options
  }

  /** The fields of an IPv6 header (section 3 of RFC 8200). */
  datatype V6Header = V6Header(trafficClass: nat, flowLabel: nat, payloadLen: nat, next: byte,
                               hopLimit: byte, src: nat, dst: nat)

  function V6HeaderBytes(h: V6Header): (b: seq<byte>)
    ensures |b| == 40
  {
    ToBytes(6 * 0x1000_0000 + h.trafficClass % 256 * 0x10_0000 + h.flowLabel % 0x10_0000, 4)
    + ToBytes(h.payloadLen, 2) + [h.next, h.hopLimit] + ToBytes(h.src, 16) + ToBytes(h.dst, 16)
  }

  /** The first four bytes of a TCP or UDP header: source port, destination port. */
  function PortBytes(srcPort: nat, dstPort: nat): (b: seq<byte>)
    ensures |b| == 4
  {
    ToBytes(srcPort, 2) + ToBytes(dstPort, 2)
  }

  /** What follows the IP header: the ports first, for the protocols that have them. */
  function Segment(proto: nat, srcPort: nat, dstPort: nat, rest: seq<byte>): seq<byte> {
    (if proto == TCP || proto == UDP then PortBytes(srcPort, dstPort) else []) + rest
  }

  /** Where each field of an IPv4 header lands. */
  lemma V4Layout(h: V4Header, tail: seq<byte>)
    requires GoodHeader(h)
    ensures var pkt := V4HeaderBytes(h) + tail;
            && pkt[0] == 0x45 + |h.options| / 4 && pkt[9] == h.proto
            && pkt[6..8] == ToBytes(h.flags * 0x2000 + h.frag, 2)
            && pkt[12..16] == ToBytes(h.src, 4)
            && pkt[20 + |h.options|..] == tail
  {
    var pkt := V4HeaderBytes(h) + tail;
    var a := [0x45 + |h.options| / 4, h.tos] + ToBytes(h.totalLen, 2) + ToBytes(h.ident, 2);
    var b := a + ToBytes(h.flags * 0x2000 + h.frag, 2) + [h.ttl, h.proto] + ToBytes(h.checksum, 2);
    assert |a| == 6 && |b| == 12;
    assert V4HeaderBytes(h)[..6] == a && V4HeaderBytes(h)[..12] == b;
  }

  /** TCP and UDP carry ports. */
  predicate Ported(proto: nat) { proto == 6 || proto == 17 }

  /** The destination port at the start of a payload; later fragments carry none. */
  function PortIn(proto: nat, first: bool, payload: seq<byte>): nat {
    if Ported(proto) && first && |payload| >= 4 then BigEndian(payload[2..4]) else 0
  }

  /** What parsing gives for a header followed by a payload. */
  function ParsedAs(src: Addr, proto: nat, first: bool, payload: seq<byte>): Option<Parsed> {
    if Ported(proto) && |payload| < 4 then None else Some(Parsed(src, proto, PortIn(proto, first, payload)))
  }

  lemma PortsAt(pkt: seq<byte>, at: nat, payload: seq<byte>)
    requires at <= |pkt| && pkt[at..] == payload && |payload| >= 4
    ensures |pkt| >= at + 4 && Word(pkt, at + 2) == BigEndian(payload[2..4])
  {
    assert pkt[at + 2..at + 4] == pkt[at..][2..4];
  }

  lemma FragAt(h: V4Header, payload: seq<byte>)
    requires GoodHeader(h)
    ensures Word(V4HeaderBytes(h) + payload, 6) % 0x2000 == h.frag
  {
    V4Layout(h, payload);
    assert Pow256(2) == 0x1_0000;
    BigEndianRoundTrip(h.flags * 0x2000 + h.frag, 2);
  }

  /** Parsing any IPv4 packet with a well-formed header, whatever its header length and
      payload, recovers its source, protocol and destination port; a later fragment
      gets port 0, and a TCP or UDP payload too short for ports is refused. */
  lemma ParsesAnyV4(h: V4Header, payload: seq<byte>)
    requires GoodHeader(h)
    ensures Parse(V4HeaderBytes(h) + payload) == ParsedAs(V4(h.src), h.proto, h.frag == 0, payload)
  {
    var pkt, ihl := V4HeaderBytes(h) + payload, 20 + |h.options|;
    V4Layout(h, payload);
    assert pkt[0] / 16 == 4 && pkt[0] as int % 16 * 4 == ihl;
    FragAt(h, payload);
    BigEndianRoundTrip(h.src, 4);
    if |payload| >= 4 { PortsAt(pkt, ihl, payload); }
  }

  lemma SegmentPort(proto: nat, srcPort: nat, dstPort: nat, rest: seq<byte>, first: bool)
    requires dstPort < 0x1_0000
    ensures var seg := Segment(proto, srcPort, dstPort, rest);
            && (Ported(proto) ==> |seg| >= 4)
            && PortIn(proto, first, seg) == if Ported(proto) && first then dstPort else 0
  {
    var seg := Segment(proto, srcPort, dstPort, rest);
    if Ported(proto) {
      assert seg[2..4] == ToBytes(dstPort, 2);
      assert Pow256(2) == 0x1_0000;
      BigEndianRoundTrip(dstPort, 2);
    }
  }

  /** In particular a well-formed segment gives its destination port back. */
  lemma ParsesV4(h: V4Header, srcPort: nat, dstPort: nat, rest: seq<byte>)
    requires GoodHeader(h) && dstPort < 0x1_0000
    ensures Parse(V4HeaderBytes(h) + Segment(h.proto, srcPort, dstPort, rest))
         == Some(Parsed(V4(h.src), h.proto, if Ported(h.proto) && h.frag == 0 then dstPort else 0))
  {
    ParsesAnyV4(h, Segment(h.proto, srcPort, dstPort, rest));
    SegmentPort(h.proto, srcPort, dstPort, rest, h.frag == 0);
  }

  lemma V6Layout(h: V6Header, tail: seq<byte>)
    ensures var pkt := V6HeaderBytes(h) + tail;
            pkt[0] / 16 == 6 && pkt[6] == h.next && pkt[8..24] == ToBytes(h.src, 16) && pkt[40..] == tail
  {
    var pkt := V6HeaderBytes(h) + tail;
    var n := 6 * 0x1000_0000 + h.trafficClass % 256 * 0x10_0000 + h.flowLabel % 0x10_0000;
    var a := ToBytes(n, 4) + ToBytes(h.payloadLen, 2) + [h.next, h.hopLimit];
    assert V6HeaderBytes(h)[..8] == a;
    assert pkt[0] == a[0] == ToBytes(n, 4)[0];
    FirstOfFour(n);
    VersionNibble(h.trafficClass % 256, h.flowLabel % 0x10_0000);
  }

  lemma FirstOfFour(n: nat)
    ensures ToBytes(n, 4)[0] == n / 256 / 256 / 256 % 256
  {
    assert ToBytes(n, 4)[0] == ToBytes(n / 256, 3)[0] == ToBytes(n / 256 / 256, 2)[0]
           == ToBytes(n / 256 / 256 / 256, 1)[0];
  }

  lemma VersionNibble(tc: nat, flow: nat)
    requires tc < 256 && flow < 0x10_0000
    ensures (6 * 0x1000_0000 + tc * 0x10_0000 + flow) / 256 / 256 / 256 % 256 / 16 == 6
  {
  }

  /** The same for IPv6 packets without extension headers. */
  lemma ParsesAnyV6(h: V6Header, payload: seq<byte>)
    requires h.src < Pow256(16)
    ensures Parse(V6HeaderBytes(h) + payload) == ParsedAs(V6(h.src), h.next, true, payload)
  {
    var pkt := V6HeaderBytes(h) + payload;
    assert BigEndian(pkt[8..24]) == h.src by { V6Layout(h, payload); BigEndianRoundTrip(h.src, 16); }
    V6Layout(h, payload);
    ReadsV6(pkt, h.src, h.next, payload);
  }

  lemma ReadsV6(pkt: seq<byte>, src: nat, next: byte, payload: seq<byte>)
    requires |pkt| >= 40 && pkt[0] / 16 == 6 && pkt[6] == next && BigEndian(pkt[8..24]) == src && pkt[40..] == payload
    ensures Parse(pkt) == ParsedAs(V6(src), next, true, payload)
  {
    if |payload| >= 4 { PortsAt(pkt, 40, payload); }
  }

  lemma ParsesV6(h: V6Header, srcPort: nat, dstPort: nat, rest: seq<byte>)
    requires h.src < Pow256(16) && dstPort < 0x1_0000
    ensures Parse(V6HeaderBytes(h) + Segment(h.next, srcPort, dstPort, rest))
         == Some(Parsed(V6(h.src), h.next, if Ported(h.next) then dstPort else 0))
  {
    ParsesAnyV6(h, Segment(h.next, srcPort, dstPort, rest));
    SegmentPort(h.next, srcPort, dstPort, rest, true);
  }

  /** The verdict on a packet is the verdict on what was parsed. */
  lemma AllowsParsed(f: RuleSet, pkt: seq<byte>, src: Addr, proto: nat, first: bool, payload: seq<byte>)
    requires Parse(pkt) == ParsedAs(src, proto, first, payload)
    ensures AllowsPacket(Some(f), pkt) <==>
              !f.enabled || (!(Ported(proto) && |payload| < 4)
                             && Allows(f.rules, src, proto, PortIn(proto, first, payload)))
  {
  }

  /** Ports are irrelevant to protocols that have none. */
  lemma {:induction false} PortlessIgnoresPort(rules: seq<Rule>, src: Addr, proto: nat, p: nat, q: nat)
    requires proto != TCP && proto != UDP
    ensures Allows(rules, src, proto, p) == Allows(rules, src, proto, q)
  {
    if rules != [] { PortlessIgnoresPort(rules[1..], src, proto, p, q); }
  }

  /** The packet filter and the dry-run tester give the same verdict on every
      unfragmented TCP, UDP or ICMP packet over IPv4 ... */
  lemma V4PacketIsCheck(f: Option<RuleSet>, h: V4Header, name: string, srcPort: nat, dstPort: nat, rest: seq<byte>)
    requires GoodHeader(h) && dstPort < 0x1_0000 && h.frag == 0 && ProtoNumber(name, V4(h.src)) == Some(h.proto)
    ensures AllowsPacket(f, V4HeaderBytes(h) + Segment(h.proto, srcPort, dstPort, rest))
        <==> Check(f, V4(h.src), name, dstPort)
  {
    ParsesV4(h, srcPort, dstPort, rest);
    if f.Some? && h.proto != TCP && h.proto != UDP {
      PortlessIgnoresPort(f.value.rules, V4(h.src), h.proto, 0, dstPort);
    }
  }

  /** ... and over IPv6. */
  lemma V6PacketIsCheck(f: Option<RuleSet>, h: V6Header, name: string, srcPort: nat, dstPort: nat, rest: seq<byte>)
    requires h.src < Pow256(16) && dstPort < 0x1_0000 && ProtoNumber(name, V6(h.src)) == Some(h.next)
    ensures AllowsPacket(f, V6HeaderBytes(h) + Segment(h.next, srcPort, dstPort, rest))
        <==> Check(f, V6(h.src), name, dstPort)
  {
    ParsesV6(h, srcPort, dstPort, rest);
    if f.Some? && h.next != TCP && h.next != UDP {
      PortlessIgnoresPort(f.value.rules, V6(h.src), h.next, 0, dstPort);
    }
  }
}
