/**
 * Values the FPM manager works with: addresses and prefixes, peers and their
 * connection records, routes, the calls made to the route store, and the
 * decoded FPM / Netlink / RtNetlink / route-attribute message records.
 */
module FpmTypes {

  /** IP version of an address. */
  datatype IpVersion = IPv4 | IPv6

  /** An IP address; its octets are abstracted to a number. */
  datatype IpAddress = IpAddress(version: IpVersion, value: nat)
  {
    predicate IsIp4() { version == IPv4 }
  }

  /** Octet lengths of an IPv4 and an IPv6 address. */
  const IP4_BYTE_LENGTH: nat := 4
  const IP6_BYTE_LENGTH: nat := 16

  /** An IP prefix: an address and a prefix length. */
  datatype IpPrefix = IpPrefix(address: IpAddress, prefixLength: nat)
  {
    predicate IsIp4() { address.IsIp4() }
  }

  /** Identity of a cluster node. */
  type NodeId = string

  /** Identity of a session channel. */
  type ChannelId = nat

  /** A remote routing daemon, identified by its address and port. */
  datatype FpmPeer = FpmPeer(address: IpAddress, port: int)

  /** One connection of a peer: the owning cluster node and when it connected. */
  datatype FpmConnectionInfo = FpmConnectionInfo(connectedTo: NodeId, peer: FpmPeer, connectTime: int)

  /** What the query interface reports per peer. */
  datatype FpmPeerInfo = FpmPeerInfo(connections: set<FpmConnectionInfo>, routeCount: nat)

  /** Origin of a route in the route store. */
  datatype RouteSource = Fpm | OtherSource

  /** A route of the route store. */
  datatype Route = Route(source: RouteSource, prefix: IpPrefix, nextHop: IpAddress, sourceNode: NodeId)

  /** The routes learnt from one peer, by prefix. */
  type PeerRouteTable = map<IpPrefix, Route>

  /** One call into the route store. */
  datatype RouteStoreCall = Withdraw(routes: set<Route>) | Update(routes: set<Route>)

  /** FPM header message type. */
  datatype FpmType = FpmTypeNetlink | FpmTypeKeepalive

  /** Netlink message types for routes. */
  datatype NetlinkMessageType = RtmNewRoute | RtmDelRoute | RtmGetRoute

  /** The protocol that originated a route (rtm_protocol). */
  datatype RtProtocol = Unspec | Zebra | OtherProtocol(code: nat)

  /** Address family of an rtmsg. */
  datatype AddressFamily = Inet | Inet6

  /** What a route attribute carries: RTA_DST, RTA_GATEWAY or another type. */
  datatype AttributePayload =
    | RtaDst(dstAddress: IpAddress)
    | RtaGateway(gateway: IpAddress)
    | RtaOther(attrType: nat)

  /** A route attribute (type-length-value). */
  datatype RouteAttribute = RouteAttribute(length: nat, payload: AttributePayload)

  /** The rtmsg header (section 3.1.1 of RFC 3549) with its attributes. */
  datatype RtNetlink = RtNetlink(
    addressFamily: AddressFamily,
    dstLength: nat,
    srcLength: nat,
    tos: nat,
    table: nat,
    protocol: RtProtocol,
    scope: nat,
    routeType: FpmType,   // FpmManager.java fills rtm_type with FPM_TYPE_NETLINK
    flags: nat,
    attributes: seq<RouteAttribute>)

  /** The Netlink message header (section 2.3.2 of RFC 3549) and its payload. */
  datatype Netlink = Netlink(
    length: nat,
    nlType: NetlinkMessageType,
    flags: bv16,
    sequence: nat,
    processPortId: nat,
    rtNetlink: RtNetlink)

  /** An FPM frame: version, type, total length and the Netlink message. */
  datatype FpmHeader = FpmHeader(version: nat, fpmType: FpmType, length: nat, netlink: Netlink)

  /** Fixed header sizes used when the lengths of a message are computed. */
  datatype HeaderLengths = HeaderLengths(
    rtNetlink: nat,
    netlinkHeader: nat,
    fpmHeader: nat,
    routeAttributeHeader: nat)

  const FPM_VERSION_1: nat := 1

  /** Netlink header flags NLM_F_REQUEST and NLM_F_CREATE (section 2.3.2 of RFC 3549). */
  const NETLINK_REQUEST: bv16 := 0x1
  const NETLINK_CREATE: bv16 := 0x400
}
