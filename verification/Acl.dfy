/** internal/coord/aclcompile.go: ordered access rules over node IDs, compiled into
    the address-based filter of one receiving node. */
module Acl {
  import opened Prelude
  import opened Numerals
  import opened Net
  import opened Filter
  import opened Store
  import opened Text

  // ---------------------------------------------------------------- port specs

  /** Position of the first '-', or the length when there is none. */
  function DashAt(s: string): (i: nat)
    ensures i <= |s|
    ensures i < |s| ==> s[i] == '-'
    ensures forall k :: 0 <= k < i ==> s[k] != '-'
  {
    if s == "" then 0 else if s[0] == '-' then 0 else 1 + DashAt(s[1..])
  }

  /** strconv.ParseUint(s, 10, 16). */
  function ParsePort(s: string): Option<nat> {
    if s == "" || !IsDigits(s) || DecimalValue(s) > 65535 then None else Some(DecimalValue(s))
  }

  function ParsePortSpec(spec: string): (r: Result<PortRange>)
    ensures r.Ok? ==> 1 <= r.value.first <= r.value.last <= 65535
  {
    var s := TrimSpace(spec);
    var i := DashAt(s);
    var f := ParsePort(TrimSpace(s[..i]));
    if f.None? || f.value == 0 then Err("bad port")
    else if i == |s| then Ok(PortRange(f.value, f.value))
    else
      var l := ParsePort(TrimSpace(s[i + 1..]));
      if l.None? || l.value < f.value then Err("bad port range") else Ok(PortRange(f.value, l.value))
  }

  lemma DigitsTrimmed(s: string)
    requires IsDigits(s)
    ensures TrimSpace(s) == s
  {
    if s != "" { assert s[0] in s && s[|s| - 1] in s; }
  }

  lemma NoDash(s: string)
    requires IsDigits(s)
    ensures DashAt(s) == |s|
  {
    assert forall k :: 0 <= k < |s| ==> s[k] in s;
  }

  lemma SinglePortRoundTrip(f: nat)
    requires 1 <= f <= 65535
    ensures ParsePortSpec(Decimal(f)) == Ok(PortRange(f, f))
  {
    DecimalRoundTrip(f);
    DigitsTrimmed(Decimal(f));
    NoDash(Decimal(f));
    assert Decimal(f)[..|Decimal(f)|] == Decimal(f);
  }

  /** The text of a port number: decimal digits, up to 65535. */
  predicate IsPort(t: string, n: nat) { t != "" && IsDigits(t) && DecimalValue(t) == n <= 65535 }

  /** The text stands for one port, or for a range of them between dashes; space around
      the text and around the numbers does not count. */
  ghost predicate Denotes(spec: string, f: nat, l: nat) {
    1 <= f <= l && (DenotesPort(spec, f, l) || DenotesRange(spec, f, l))
  }

  predicate DenotesPort(spec: string, f: nat, l: nat) {
    '-' !in TrimSpace(spec) && IsPort(TrimSpace(TrimSpace(spec)), f) && l == f
  }

  ghost predicate DenotesRange(spec: string, f: nat, l: nat) {
    exists u: string, v: string ::
      TrimSpace(spec) == u + "-" + v && '-' !in u && IsPort(TrimSpace(u), f) && IsPort(TrimSpace(v), l)
  }

  lemma DashIs(s: string, u: string, v: string)
    requires s == u + "-" + v && '-' !in u
    ensures DashAt(s) == |u| && s[..|u|] == u && s[|u| + 1..] == v
  {
    assert s[|u|] == '-';
    assert forall k :: 0 <= k < |u| ==> s[k] == u[k] && u[k] in u;
  }

  lemma DenotedParses(spec: string, f: nat, l: nat)
    requires Denotes(spec, f, l)
    ensures ParsePortSpec(spec) == Ok(PortRange(f, l))
  {
    var s := TrimSpace(spec);
    if DenotesPort(spec, f, l) {
      assert DashAt(s) == |s| && s[..|s|] == s;
    } else {
      var u: string, v: string :| s == u + "-" + v && '-' !in u && IsPort(TrimSpace(u), f) && IsPort(TrimSpace(v), l);
      RangeParses(spec, u, v, f, l);
    }
  }

  lemma RangeParses(spec: string, u: string, v: string, f: nat, l: nat)
    requires TrimSpace(spec) == u + "-" + v && '-' !in u && 1 <= f <= l
    requires IsPort(TrimSpace(u), f) && IsPort(TrimSpace(v), l)
    ensures ParsePortSpec(spec) == Ok(PortRange(f, l))
  {
    DashIs(TrimSpace(spec), u, v);
  }

  lemma ParsedDenotes(spec: string, f: nat, l: nat)
    requires ParsePortSpec(spec) == Ok(PortRange(f, l))
    ensures Denotes(spec, f, l)
  {
    var s := TrimSpace(spec);
    var i := DashAt(s);
    if i == |s| {
      assert s[..i] == s && '-' !in s;
    } else {
      assert s == s[..i] + "-" + s[i + 1..] && '-' !in s[..i];
    }
  }

  /** A spec parses to a range exactly when it stands for it. */
  lemma PortSpecMeaning(spec: string, f: nat, l: nat)
    ensures ParsePortSpec(spec) == Ok(PortRange(f, l)) <==> Denotes(spec, f, l)
  {
    if Denotes(spec, f, l) { DenotedParses(spec, f, l); }
    if ParsePortSpec(spec) == Ok(PortRange(f, l)) { ParsedDenotes(spec, f, l); }
  }

  lemma RangeSplits(a: string, b: string)
    requires IsDigits(a) && IsDigits(b) && a != "" && b != ""
    ensures var s := a + "-" + b; TrimSpace(s) == s && DashAt(s) == |a| && s[..|a|] == a && s[|a| + 1..] == b
  {
    var s := a + "-" + b;
    assert s[0] == a[0] && a[0] in a && s[|s| - 1] == b[|b| - 1] && b[|b| - 1] in b;
    assert s[|a|] == '-';
    assert forall k :: 0 <= k < |a| ==> s[k] == a[k] && a[k] in a;
  }

  /** What an administrator writes is what is enforced: "f-l" parses to exactly that range. */
  lemma PortRangeRoundTrip(f: nat, l: nat)
    requires 1 <= f <= l <= 65535
    ensures ParsePortSpec(Decimal(f) + "-" + Decimal(l)) == Ok(PortRange(f, l))
  {
    DecimalRoundTrip(f);
    DecimalRoundTrip(l);
    DigitsTrimmed(Decimal(f));
    DigitsTrimmed(Decimal(l));
    RangeSplits(Decimal(f), Decimal(l));
  }

  // ---------------------------------------------------------------- meaning of the rules

  predicate Listed(ids: seq<nat>, id: nat) { ids == [] || id in ids }

  predicate PortsAdmit(specs: seq<string>, proto: nat, port: nat) {
    || specs == []
    || ((proto == 6 || proto == 17)
        && exists s :: s in specs && ParsePortSpec(s).Ok?
                       && ParsePortSpec(s).value.first <= port <= ParsePortSpec(s).value.last)
  }

  /** The protocol numbers a name stands for: TCP is 6, UDP 17, ICMP 1 and ICMPv6 58; no
      name stands for every protocol, and other names for none. */
  predicate NamesProtocol(name: string, proto: nat) {
    if name == "" then true
    else if name == "tcp" then proto == 6
    else if name == "udp" then proto == 17
    else if name == "icmp" then proto == 1 || proto == 58
    else false
  }

  /** A rule speaks about traffic from device s to device d. */
  predicate Applies(r: AclRule, s: nat, d: nat, proto: nat, port: nat) {
    Listed(r.srcIds, s) && Listed(r.dstIds, d) && NamesProtocol(r.protocol, proto) && PortsAdmit(r.ports, proto, port)
  }

  /** The filter matches exactly the numbers a name stands for. */
  lemma ProtocolMeaning(name: string, proto: nat)
    ensures MatchesProto(name, proto) <==> NamesProtocol(name, proto)
  {
  }

  predicate IsProtocol(name: string) { name == "tcp" || name == "udp" || name == "icmp" }

  /** What the tester asks about under one name is matched by rules of that name and of no
      other, and is the number the standards assign. */
  lemma ProtocolsAreApart(name: string, other: string, src: Addr)
    requires IsProtocol(name) && IsProtocol(other)
    ensures var n := ProtoNumber(other, src);
            && n.Some? && (MatchesProto(name, n.value) <==> name == other) && MatchesProto("", n.value)
            && n.value == if other == "tcp" then 6 else if other == "udp" then 17 else if src.V4? then 1 else 58
  {
  }

  predicate FirstApplicable(rules: seq<AclRule>, s: nat, d: nat, proto: nat, port: nat) {
    if rules == [] then false
    else if Applies(rules[0], s, d, proto, port) then rules[0].action == "allow"
    else FirstApplicable(rules[1..], s, d, proto, port)
  }

  /** What the rule list says: with no rules everything passes, otherwise the first
      applicable rule decides and silence is a deny. */
  predicate Permits(rules: seq<AclRule>, s: nat, d: nat, proto: nat, port: nat) {
    rules == [] || FirstApplicable(rules, s, d, proto, port)
  }

  // ---------------------------------------------------------------- compilation

  function ById(nodes: seq<Node>): map<nat, Node> {
    if nodes == [] then map[] else ById(nodes[..|nodes| - 1])[nodes[|nodes| - 1].id := nodes[|nodes| - 1]]
  }

  function HostCidrs(n: Node): seq<Cidr> { [Cidr(n.ip4, 32), Cidr(n.ip6, 128)] }

  function SrcCidrs(byId: map<nat, Node>, ids: seq<nat>): seq<Cidr> {
    if ids == [] then []
    else
      var id := ids[|ids| - 1];
      SrcCidrs(byId, ids[..|ids| - 1]) + if id in byId then HostCidrs(byId[id]) else []
  }

  function DstPorts(specs: seq<string>): seq<PortRange> {
    if specs == [] then []
    else
      var r := ParsePortSpec(specs[|specs| - 1]);
      DstPorts(specs[..|specs| - 1]) + if r.Ok? then [r.value] else []
  }

  /** The wire form of one rule at node d, if the rule can ever match there. */
  function CompileRule(byId: map<nat, Node>, r: AclRule, d: nat): Option<WireRule> {
    if !Listed(r.dstIds, d) then None
    else
      var srcs := SrcCidrs(byId, r.srcIds);
      if r.srcIds != [] && srcs == [] then None
      else Some(WireRule(r.action == "allow", srcs, r.protocol, DstPorts(r.ports)))
  }

  function CompileRules(byId: map<nat, Node>, rules: seq<AclRule>, d: nat): seq<WireRule> {
    if rules == [] then []
    else
      var w := CompileRule(byId, rules[0], d);
      (if w.Some? then [w.value] else []) + CompileRules(byId, rules[1..], d)
  }

  /** The loop body of CompileFilterForNode: one rule, or nothing when it is skipped. */
  method CompileOne(byId: map<nat, Node>, r: AclRule, d: nat) returns (w: Option<WireRule>)
    ensures w == CompileRule(byId, r, d)
  {
    if !Listed(r.dstIds, d) { return None; }
    var srcs: seq<Cidr> := [];
    for j := 0 to |r.srcIds|
      invariant srcs == SrcCidrs(byId, r.srcIds[..j])
    {
      assert r.srcIds[..j + 1][..j] == r.srcIds[..j];
      if r.srcIds[j] in byId {
        var n := byId[r.srcIds[j]];
        srcs := srcs + [Cidr(n.ip4, 32), Cidr(n.ip6, 128)];
      }
    }
    assert r.srcIds[..|r.srcIds|] == r.srcIds;
    if |r.srcIds| > 0 && |srcs| == 0 { return None; }
    var ports: seq<PortRange> := [];
    for j := 0 to |r.ports|
      invariant ports == DstPorts(r.ports[..j])
    {
      assert r.ports[..j + 1][..j] == r.ports[..j];
      var pr := ParsePortSpec(r.ports[j]);
      if pr.Ok? { ports := ports + [pr.value]; }
    }
    assert r.ports[..|r.ports|] == r.ports;
    w := Some(WireRule(r.action == "allow", srcs, r.protocol, ports));
  }

  /** CompileFilterForNode over the network's rules and nodes. */
  method CompileFilterForNode(rules: seq<AclRule>, nodes: seq<Node>, d: nat) returns (out: seq<WireRule>, enabled: bool)
    ensures enabled <==> rules != []
    ensures out == CompileRules(ById(nodes), rules, d)
  {
    out := [];
    if rules == [] { return out, false; }
    var byId: map<nat, Node> := map[];
    for i := 0 to |nodes|
      invariant byId == ById(nodes[..i])
    {
      assert nodes[..i + 1][..i] == nodes[..i];
      byId := byId[nodes[i].id := nodes[i]];
    }
    assert nodes[..|nodes|] == nodes;
    for i := 0 to |rules|
      invariant out + CompileRules(byId, rules[i..], d) == CompileRules(byId, rules, d)
    {
      assert rules[i..][1..] == rules[i + 1..];
      var w := CompileOne(byId, rules[i], d);
      if w.Some? { out := out + [w.value]; }
    }
    enabled := true;
  }

  // ---------------------------------------------------------------- meaning is preserved

  lemma {:induction false} SrcCidrsMember(byId: map<nat, Node>, ids: seq<nat>, c: Cidr)
    ensures c in SrcCidrs(byId, ids) <==> exists id :: id in ids && id in byId && c in HostCidrs(byId[id])
  {
    if ids != [] {
      var m := |ids| - 1;
      assert ids == ids[..m] + [ids[m]];
      SrcCidrsMember(byId, ids[..m], c);
    }
  }

  lemma {:induction false} ParsedMember(cs: seq<Cidr>, p: Prefix)
    ensures p in ParsedPrefixes(cs) <==> exists c :: c in cs && ParsePrefix(c) == Some(p)
  {
    if cs != [] {
      var m := |cs| - 1;
      assert cs == cs[..m] + [cs[m]];
      ParsedMember(cs[..m], p);
    }
  }

  /** A rule that names ports names at least one that parses. */
  predicate SpecsOk(specs: seq<string>) {
    specs == [] || exists s :: s in specs && ParsePortSpec(s).Ok?
  }

  lemma {:induction false} DstPortsMeaning(specs: seq<string>, port: nat)
    ensures DstPorts(specs) == [] <==> forall s :: s in specs ==> ParsePortSpec(s).Err?
    ensures forall pr :: pr in DstPorts(specs) ==> 1 <= pr.first <= pr.last <= 65535
    ensures InRanges(DstPorts(specs), port) <==>
            exists s :: s in specs && ParsePortSpec(s).Ok?
                        && ParsePortSpec(s).value.first <= port <= ParsePortSpec(s).value.last
  {
    if specs != [] {
      var m := |specs| - 1;
      assert specs == specs[..m] + [specs[m]];
      DstPortsMeaning(specs[..m], port);
    }
  }

  /** src is an address of node s, and of no other node. */
  predicate OwnedBy(byId: map<nat, Node>, src: Addr, s: nat) {
    && s in byId
    && (src == byId[s].ip4 || src == byId[s].ip6)
    && (forall t :: t in byId && (byId[t].ip4 == src || byId[t].ip6 == src) ==> t == s)
    && (forall t :: t in byId ==> byId[t].ip4.V4? && (byId[t].ip6.V6? || byId[t].ip6 == byId[t].ip4))
  }

  /** No rule loses all its sources in conversion and turns into "any source". */
  lemma SourcesStay(byId: map<nat, Node>, ids: seq<nat>)
    requires SrcCidrs(byId, ids) != [] && forall t :: t in byId ==> byId[t].ip4.V4?
    ensures ParsedPrefixes(SrcCidrs(byId, ids)) != []
  {
    var cs := SrcCidrs(byId, ids);
    SrcCidrsMember(byId, ids, cs[0]);
    var id :| id in ids && id in byId && cs[0] in HostCidrs(byId[id]);
    SrcCidrsMember(byId, ids, Cidr(byId[id].ip4, 32));
    ParsedMember(cs, Prefix(byId[id].ip4, 32));
  }

  predicate Covers(ps: seq<Prefix>, src: Addr) {
    exists p :: p in ps && p.bits <= Width(p.addr) && Contains(p, src)
  }

  /** The compiled source list covers exactly the addresses of the listed live nodes. */
  lemma SourcesMeaning(byId: map<nat, Node>, ids: seq<nat>, src: Addr, s: nat)
    requires OwnedBy(byId, src, s)
    ensures Covers(ParsedPrefixes(SrcCidrs(byId, ids)), src) <==> s in ids
  {
    var cs := SrcCidrs(byId, ids);
    var ps := ParsedPrefixes(cs);
    if s in ids {
      var own, p := Cidr(src, Width(src)), Prefix(src, Width(src));
      SrcCidrsMember(byId, ids, own);
      assert own in HostCidrs(byId[s]);
      ParsedMember(cs, p);
      HostPrefix(p, src);
      assert p in ps;
    }
    forall p | p in ps && p.bits <= Width(p.addr) && Contains(p, src) ensures s in ids {
      ParsedMember(cs, p);
      var c :| c in cs && ParsePrefix(c) == Some(p);
      SrcCidrsMember(byId, ids, c);
      var id :| id in ids && id in byId && c in HostCidrs(byId[id]);
      HostPrefix(p, src);
    }
  }

  /** One rule: its wire form, converted at the receiver, matches exactly the traffic
      the rule speaks about; a rule that is dropped speaks about none of it. */
  lemma RuleMeaning(byId: map<nat, Node>, r: AclRule, src: Addr, s: nat, d: nat, proto: nat, port: nat)
    requires OwnedBy(byId, src, s) && SpecsOk(r.ports)
    ensures var w := CompileRule(byId, r, d);
            if w.Some? then Matches(Convert(w.value), src, proto, port) <==> Applies(r, s, d, proto, port)
            else !Applies(r, s, d, proto, port)
  {
    var w := CompileRule(byId, r, d);
    SourcesMeaning(byId, r.srcIds, src, s);
    ProtocolMeaning(r.protocol, proto);
    if w.Some? {
      if r.srcIds != [] { SourcesStay(byId, r.srcIds); }
      assert MatchesSrc(Convert(w.value), src) <==> Listed(r.srcIds, s);
      PortsMeaning(r, proto, port);
    }
  }

  lemma PortsMeaning(r: AclRule, proto: nat, port: nat)
    requires SpecsOk(r.ports)
    ensures CutAll(DstPorts(r.ports)) == DstPorts(r.ports)
    ensures (DstPorts(r.ports) == [] || ((proto == TCP || proto == UDP) && InRanges(DstPorts(r.ports), port)))
            <==> PortsAdmit(r.ports, proto, port)
  {
    DstPortsMeaning(r.ports, port);
    CutIsIdentity(DstPorts(r.ports));
  }

  /** Port numbers that fit in 16 bits survive the wire. */
  lemma CutIsIdentity(ds: seq<PortRange>)
    requires forall pr :: pr in ds ==> pr.first <= 65535 && pr.last <= 65535
    ensures CutAll(ds) == ds
  {
    forall i | 0 <= i < |ds| ensures CutAll(ds)[i] == ds[i] { assert ds[i] in ds; }
  }

  predicate AllSpecsOk(rules: seq<AclRule>) {
    forall r :: r in rules ==> SpecsOk(r.ports)
  }

  /** Compilation preserves meaning: at node d, the compiled and converted filter gives
      a packet from an address of node s the verdict the ID rules give (s, d), for
      every protocol number and port. */
  lemma {:induction false} CompiledMeaning(byId: map<nat, Node>, rules: seq<AclRule>, src: Addr, s: nat, d: nat,
                                           proto: nat, port: nat)
    requires OwnedBy(byId, src, s) && AllSpecsOk(rules)
    ensures Allows(ConvertAll(CompileRules(byId, rules, d)), src, proto, port)
       <==> FirstApplicable(rules, s, d, proto, port)
  {
    if rules != [] {
      assert rules[0] in rules && AllSpecsOk(rules[1..]);
      RuleMeaning(byId, rules[0], src, s, d, proto, port);
      CompiledMeaning(byId, rules[1..], src, s, d, proto, port);
      var ws, w := CompileRules(byId, rules, d), CompileRule(byId, rules[0], d);
      if w.Some? {
        assert ws[1..] == CompileRules(byId, rules[1..], d);
        assert ConvertAll(ws)[1..] == ConvertAll(ws[1..]);
      } else {
        assert ws == CompileRules(byId, rules[1..], d);
      }
    }
  }

  /** The filter node d installs from a netmap. */
  function InstalledFilter(byId: map<nat, Node>, rules: seq<AclRule>, d: nat): RuleSet {
    RuleSet(rules != [], ConvertAll(CompileRules(byId, rules, d)))
  }

  /** End to end on the dry-run tester: "can s reach d?" is answered by the rules. */
  lemma PolicyEnforced(byId: map<nat, Node>, rules: seq<AclRule>, src: Addr, s: nat, d: nat, name: string, port: nat)
    requires OwnedBy(byId, src, s) && AllSpecsOk(rules) && ProtoNumber(name, src).Some?
    ensures Check(Some(InstalledFilter(byId, rules, d)), src, name, port)
       <==> Permits(rules, s, d, ProtoNumber(name, src).value, port)
  {
    CompiledMeaning(byId, rules, src, s, d, ProtoNumber(name, src).value, port);
  }

  /** A later fragment never matches a compiled rule that names ports, whatever bytes
      it carries. */
  lemma FragmentsMatchNoPorts(byId: map<nat, Node>, r: AclRule, d: nat, h: V4Header, payload: seq<byte>)
    requires SpecsOk(r.ports) && r.ports != [] && CompileRule(byId, r, d).Some?
    requires GoodHeader(h) && h.frag != 0
    ensures var p := Parse(V4HeaderBytes(h) + payload);
            p.Some? ==> !Matches(Convert(CompileRule(byId, r, d).value), p.value.src, p.value.proto, p.value.port)
  {
    ParsesAnyV4(h, payload);
    DstPortsMeaning(r.ports, 0);
    CutIsIdentity(DstPorts(r.ports));
  }

  /** SpecsOk is exact: a rule that names only ports that do not parse compiles to one
      for every port, and so matches all the other traffic it names, though the rule
      itself applies to none. */
  lemma BadSpecsWiden(byId: map<nat, Node>, r: AclRule, src: Addr, s: nat, d: nat, proto: nat, port: nat)
    requires OwnedBy(byId, src, s) && !SpecsOk(r.ports)
    requires Listed(r.srcIds, s) && Listed(r.dstIds, d) && NamesProtocol(r.protocol, proto)
    ensures !Applies(r, s, d, proto, port)
    ensures CompileRule(byId, r, d).Some? && Matches(Convert(CompileRule(byId, r, d).value), src, proto, port)
  {
    DstPortsMeaning(r.ports, port);
    SourcesMeaning(byId, r.srcIds, src, s);
  }
}
