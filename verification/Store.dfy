/** The rows internal/store keeps: what the coordinator steps over. */
module Store {
  import opened Net

  datatype Network = Network(id: nat, name: string, v4: Prefix, v6: Prefix)

  /** A registered device.  Until its IPv6 address is derived from the assigned ID,
      the ip6 column holds the IPv4 address as a placeholder. */
  datatype Node = Node(id: nat, net: nat, hostname: string, machineKey: string, nodeKey: string,
                       ip4: Addr, ip6: Addr, os: string, endpoints: seq<string>)

  datatype SetupKey = SetupKey(net: nat, reusable: bool, revoked: bool, expiresAt: nat, usedCount: nat)

  /** An access rule as the admin edits it; empty lists mean any. */
  datatype AclRule = AclRule(action: string, srcIds: seq<nat>, dstIds: seq<nat>, protocol: string, ports: seq<string>)
}
