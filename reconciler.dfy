/**
 * The pure part of the FPM manager's reconciliation of a decoded route
 * message with a peer's route table: which attributes count, which messages
 * are ignored, and which withdraws and updates a message produces.
 */
module Reconciler {
  import opened Wrappers
  import opened FpmTypes

  /** Whether some attribute is an RTA_DST. */
  predicate HasDst(attributes: seq<RouteAttribute>)
  {
    exists i :: 0 <= i < |attributes| && attributes[i].payload.RtaDst?
  }

  /** Whether some attribute is an RTA_GATEWAY. */
  predicate HasGateway(attributes: seq<RouteAttribute>)
  {
    exists i :: 0 <= i < |attributes| && attributes[i].payload.RtaGateway?
  }

  /** The address of the last RTA_DST attribute: a later one overwrites an earlier one. */
  function LastDst(attributes: seq<RouteAttribute>): (r: Option<IpAddress>)
    ensures r.None? <==> !HasDst(attributes)
    ensures r.Some? ==> exists i :: 0 <= i < |attributes| && attributes[i].payload == RtaDst(r.value)
                                    && forall j :: i < j < |attributes| ==> !attributes[j].payload.RtaDst?
  {
    if |attributes| == 0 then None
    else
      var n := |attributes| - 1;
      if attributes[n].payload.RtaDst? then Some(attributes[n].payload.dstAddress)
      else
        var r := LastDst(attributes[..n]);
        assert forall j :: 0 <= j < n ==> attributes[..n][j] == attributes[j];
        r
  }

  /** The address of the last RTA_GATEWAY attribute. */
  function LastGateway(attributes: seq<RouteAttribute>): (r: Option<IpAddress>)
    ensures r.None? <==> !HasGateway(attributes)
    ensures r.Some? ==> exists i :: 0 <= i < |attributes| && attributes[i].payload == RtaGateway(r.value)
                                    && forall j :: i < j < |attributes| ==> !attributes[j].payload.RtaGateway?
  {
    if |attributes| == 0 then None
    else
      var n := |attributes| - 1;
      if attributes[n].payload.RtaGateway? then Some(attributes[n].payload.gateway)
      else
        var r := LastGateway(attributes[..n]);
        assert forall j :: 0 <= j < n ==> attributes[..n][j] == attributes[j];
        r
  }

  /** The attribute loop of the message handler: keeps the last DST and the last GATEWAY. */
  method ExtractAttributes(attributes: seq<RouteAttribute>) returns (dstAddress: Option<IpAddress>, gateway: Option<IpAddress>)
    ensures dstAddress == LastDst(attributes)
    ensures gateway == LastGateway(attributes)
  {
    dstAddress, gateway := None, None;
    for i := 0 to |attributes|
      invariant dstAddress == LastDst(attributes[..i])
      invariant gateway == LastGateway(attributes[..i])
    {
      assert attributes[..i + 1][..i] == attributes[..i];
      match attributes[i].payload
      case RtaDst(address) =>
        dstAddress := Some(address);
      case RtaGateway(address) =>
        gateway := Some(address);
      case RtaOther(_) =>
    }
    assert attributes[..|attributes|] == attributes;
  }

  /** Whether some record of a store names the prefix (the stream's anyMatch). */
  function AnyMatch(records: seq<IpPrefix>, prefix: IpPrefix): (r: bool)
    ensures r <==> prefix in records
  {
    if |records| == 0 then false
    else records[0] == prefix || AnyMatch(records[1..], prefix)
  }

  /** Membership of a prefix in an optional store (an unbound store holds nothing). */
  function RouteInStore(records: Option<seq<IpPrefix>>, prefix: IpPrefix): (r: bool)
    ensures r <==> records.Some? && prefix in records.value
  {
    match records
    case None => false
    case Some(rs) => AnyMatch(rs, prefix)
  }

  /** What the message handler reads from the manager besides the peer's table. */
  datatype ReconcileConfig = ReconcileConfig(
    localNode: NodeId,
    pdPushNextHopIPv4: Option<IpAddress>,
    pdPushNextHopIPv6: Option<IpAddress>,
    ripRecords: Option<seq<IpPrefix>>,
    dhcpRecords: Option<seq<IpPrefix>>)

  /**
   * Loop suppression: the gateway is a PD-push next-hop and the prefix is in
   * the DHCP or RIP store. The IPv4 next-hop is compared only for an IPv4
   * prefix, the IPv6 next-hop for every prefix.
   */
  predicate SelfPushed(cfg: ReconcileConfig, prefix: IpPrefix, gateway: Option<IpAddress>): (b: bool)
    ensures b ==> gateway.Some? && (gateway == cfg.pdPushNextHopIPv4 || gateway == cfg.pdPushNextHopIPv6)
    ensures b ==> (cfg.dhcpRecords.Some? && prefix in cfg.dhcpRecords.value)
                  || (cfg.ripRecords.Some? && prefix in cfg.ripRecords.value)
    ensures !prefix.IsIp4() && gateway != cfg.pdPushNextHopIPv6 ==> !b
  {
    && gateway.Some?
    && ((prefix.IsIp4() && gateway == cfg.pdPushNextHopIPv4) || gateway == cfg.pdPushNextHopIPv6)
    && (RouteInStore(cfg.dhcpRecords, prefix) || RouteInStore(cfg.ripRecords, prefix))
  }

  /** What a decoded message asks of the peer's table. */
  datatype RouteAction =
    | Discard                                      // returned before the route store is called
    | Announce(prefix: IpPrefix, nextHop: IpAddress) // RTM_NEWROUTE with a gateway
    | Delete(prefix: IpPrefix)                     // RTM_DELROUTE
    | SubmitNothing                                // RTM_GETROUTE: the store is called with nothing

  /**
   * The filters of the message handler, applied in the order of
   * FpmManager.java; Filtered is the independent, unordered definition of
   * what they discard.
   */
  function Classify(cfg: ReconcileConfig, msg: FpmHeader): (r: RouteAction)
    ensures r == Discard <==> Filtered(cfg, msg)
    ensures r.Announce? ==>
              && msg.netlink.nlType == RtmNewRoute
              && LastDst(msg.netlink.rtNetlink.attributes) == Some(r.prefix.address)
              && r.prefix.prefixLength == msg.netlink.rtNetlink.dstLength
              && LastGateway(msg.netlink.rtNetlink.attributes) == Some(r.nextHop)
    ensures r.Delete? ==>
              && msg.netlink.nlType == RtmDelRoute
              && LastDst(msg.netlink.rtNetlink.attributes) == Some(r.prefix.address)
              && r.prefix.prefixLength == msg.netlink.rtNetlink.dstLength
    ensures r.SubmitNothing? ==> msg.netlink.nlType == RtmGetRoute
  {
    if msg.fpmType == FpmTypeKeepalive then Discard
    else
      var rt := msg.netlink.rtNetlink;
      if !(rt.protocol == Zebra || rt.protocol == Unspec) then Discard
      else
        var dst := LastDst(rt.attributes);
        var gateway := LastGateway(rt.attributes);
        if dst.None? then Discard
        else
          var prefix := IpPrefix(dst.value, rt.dstLength);
          if SelfPushed(cfg, prefix, gateway) then Discard
          else
            match msg.netlink.nlType
            case RtmNewRoute => if gateway.None? then Discard else Announce(prefix, gateway.value)
            case RtmDelRoute => Delete(prefix)
            case RtmGetRoute => SubmitNothing
  }

  /** The messages the handler ignores, one disjunct per filter. */
  predicate Filtered(cfg: ReconcileConfig, msg: FpmHeader)
  {
    var rt := msg.netlink.rtNetlink;
    var dst := LastDst(rt.attributes);
    || msg.fpmType == FpmTypeKeepalive
    || rt.protocol.OtherProtocol?
    || !HasDst(rt.attributes)
    || (msg.netlink.nlType == RtmNewRoute && !HasGateway(rt.attributes))
    || (dst.Some? && SelfPushed(cfg, IpPrefix(dst.value, rt.dstLength), LastGateway(rt.attributes)))
  }

  /** The outcome of a message for the peer's table and the route store. */
  datatype Reconciliation =
    | Dropped
    | Submitted(table: Option<PeerRouteTable>, updates: set<Route>, withdraws: set<Route>)

  /** The table a peer has, or an empty one. */
  function TableOf(fpmRoutes: map<FpmPeer, PeerRouteTable>, peer: FpmPeer): PeerRouteTable
  {
    if peer in fpmRoutes then fpmRoutes[peer] else map[]
  }

  /** The effect of one message on a peer's table: the new table (if touched), updates and withdraws. */
  function Reconcile(cfg: ReconcileConfig, table: PeerRouteTable, msg: FpmHeader): (r: Reconciliation)
    ensures Filtered(cfg, msg) ==> r == Dropped
    ensures r.Submitted? ==> |r.updates| <= 1 && |r.withdraws| <= 1
    ensures r.Submitted? ==>
              forall u :: u in r.updates ==>
                && u.source == Fpm && u.sourceNode == cfg.localNode
                && r.table.Some? && u.prefix in r.table.value && r.table.value[u.prefix] == u
    ensures r.Submitted? && r.table.Some? ==>
              forall p :: p in table && p !in r.table.value ==>
                Route(Fpm, p, table[p].nextHop, cfg.localNode) in r.withdraws
    ensures r.Submitted? && r.table.Some? ==>
              forall p :: p in table && p in r.table.value && table[p] != r.table.value[p] ==>
                table[p] in r.withdraws && r.table.value[p] in r.updates
  {
    match Classify(cfg, msg)
    case Discard => Dropped
    case Announce(prefix, nextHop) =>
      var route := Route(Fpm, prefix, nextHop, cfg.localNode);
      Submitted(Some(table[prefix := route]), {route}, if prefix in table then {table[prefix]} else {})
    case Delete(prefix) =>
      if prefix !in table then Dropped
      else Submitted(Some(table - {prefix}), {}, {Route(Fpm, prefix, table[prefix].nextHop, cfg.localNode)})
    case SubmitNothing => Submitted(None, {}, {})
  }

  /** Every route of the table is an FPM route of the node, filed under its own prefix. */
  predicate TableOwned(table: PeerRouteTable, node: NodeId)
  {
    forall prefix :: prefix in table ==> table[prefix] == Route(Fpm, prefix, table[prefix].nextHop, node)
  }

  /** Every route of every peer table, as a set. */
  function AllRoutes(fpmRoutes: map<FpmPeer, PeerRouteTable>): (r: set<Route>)
    ensures forall peer, prefix :: peer in fpmRoutes && prefix in fpmRoutes[peer] ==> fpmRoutes[peer][prefix] in r
    ensures forall route :: route in r ==>
              exists peer, prefix :: peer in fpmRoutes && prefix in fpmRoutes[peer] && fpmRoutes[peer][prefix] == route
    ensures fpmRoutes == map[] ==> r == {}
  {
    assert forall peer, prefix :: peer in fpmRoutes && prefix in fpmRoutes[peer] ==> fpmRoutes[peer][prefix] in fpmRoutes[peer].Values;
    set peer, route | peer in fpmRoutes && route in fpmRoutes[peer].Values :: route
  }

  // ---------------------------------------------------------------------------
  // Properties of the reconciliation

  /** A message is discarded exactly when one of the filters applies to it. */
  lemma DiscardIffFiltered(cfg: ReconcileConfig, msg: FpmHeader)
    ensures Classify(cfg, msg) == Discard <==> Filtered(cfg, msg)
  {
  }

  /** Filtered messages leave the table and the route store alone. */
  lemma FilteredIsDropped(cfg: ReconcileConfig, table: PeerRouteTable, msg: FpmHeader)
    requires Filtered(cfg, msg)
    ensures Reconcile(cfg, table, msg) == Dropped
  {
    DiscardIffFiltered(cfg, msg);
  }

  /** An unfiltered NEWROUTE announces the last DST (with dstLength) via the last GATEWAY. */
  lemma NewRouteIsAnnounced(cfg: ReconcileConfig, msg: FpmHeader)
    requires !Filtered(cfg, msg) && msg.netlink.nlType == RtmNewRoute
    ensures var rt := msg.netlink.rtNetlink;
            LastDst(rt.attributes).Some? && LastGateway(rt.attributes).Some?
            && Classify(cfg, msg) == Announce(IpPrefix(LastDst(rt.attributes).value, rt.dstLength), LastGateway(rt.attributes).value)
  {
    DiscardIffFiltered(cfg, msg);
  }

  /**
   * NEWROUTE with a gateway: the prefix now maps to the new FPM route of the
   * local node, every other prefix is unchanged, one update is submitted and
   * the replaced route, if any, is withdrawn.
   */
  lemma AnnounceReplaces(cfg: ReconcileConfig, table: PeerRouteTable, msg: FpmHeader, prefix: IpPrefix, nextHop: IpAddress)
    requires Classify(cfg, msg) == Announce(prefix, nextHop)
    ensures var route := Route(Fpm, prefix, nextHop, cfg.localNode);
            var r := Reconcile(cfg, table, msg);
            && r.Submitted? && r.table.Some?
            && prefix in r.table.value && r.table.value[prefix] == route
            && r.table.value.Keys == table.Keys + {prefix}
            && (forall q :: q in table && q != prefix ==> r.table.value[q] == table[q])
            && |r.table.value| == (if prefix in table then |table| else |table| + 1)
            && r.updates == {route}
            && r.withdraws == (if prefix in table then {table[prefix]} else {})
  {
  }

  /** DELROUTE of an unknown prefix changes nothing and calls nothing. */
  lemma DeleteUnknownIsDropped(cfg: ReconcileConfig, table: PeerRouteTable, msg: FpmHeader, prefix: IpPrefix)
    requires Classify(cfg, msg) == Delete(prefix) && prefix !in table
    ensures Reconcile(cfg, table, msg) == Dropped
  {
  }

  /**
   * DELROUTE of a known prefix: the prefix leaves the table, the others stay,
   * and the route with the stored next-hop is withdrawn with no update.
   */
  lemma DeleteRemoves(cfg: ReconcileConfig, table: PeerRouteTable, msg: FpmHeader, prefix: IpPrefix)
    requires Classify(cfg, msg) == Delete(prefix) && prefix in table
    ensures var r := Reconcile(cfg, table, msg);
            && r.Submitted? && r.table.Some?
            && r.table.value.Keys == table.Keys - {prefix}
            && (forall q :: q in r.table.value ==> r.table.value[q] == table[q])
            && |r.table.value| == |table| - 1
            && r.updates == {}
            && r.withdraws == {Route(Fpm, prefix, table[prefix].nextHop, cfg.localNode)}
  {
    var t := table - {prefix};
    assert t.Keys == table.Keys - {prefix};
    assert table.Keys == t.Keys + {prefix};
    assert |table.Keys| == |t.Keys| + 1;
  }

  /** In an owned table, the route a DELROUTE withdraws is exactly the stored one. */
  lemma DeleteWithdrawsStoredRoute(cfg: ReconcileConfig, table: PeerRouteTable, msg: FpmHeader, prefix: IpPrefix)
    requires TableOwned(table, cfg.localNode)
    requires Classify(cfg, msg) == Delete(prefix) && prefix in table
    ensures Reconcile(cfg, table, msg).withdraws == {table[prefix]}
  {
  }

  /** RTM_GETROUTE still calls the route store, with nothing. */
  lemma GetRouteSubmitsNothing(cfg: ReconcileConfig, table: PeerRouteTable, msg: FpmHeader)
    requires !Filtered(cfg, msg) && msg.netlink.nlType == RtmGetRoute
    ensures Reconcile(cfg, table, msg) == Submitted(None, {}, {})
  {
    DiscardIffFiltered(cfg, msg);
  }

  /** An IPv4 prefix whose gateway is the IPv6 next-hop is suppressed too: the family is not checked. */
  lemma SuppressionIgnoresFamilyOfIPv6NextHop(cfg: ReconcileConfig, prefix: IpPrefix, gateway: IpAddress)
    requires prefix.IsIp4() && cfg.pdPushNextHopIPv6 == Some(gateway)
    requires cfg.ripRecords.Some? && prefix in cfg.ripRecords.value
    ensures SelfPushed(cfg, prefix, Some(gateway))
  {
  }

  /** Reconciliation keeps every table owned by the local node. */
  lemma ReconcileKeepsOwnership(cfg: ReconcileConfig, table: PeerRouteTable, msg: FpmHeader)
    requires TableOwned(table, cfg.localNode)
    ensures var r := Reconcile(cfg, table, msg);
            r.Submitted? && r.table.Some? ==> TableOwned(r.table.value, cfg.localNode)
  {
  }

  /** Republished routes are FPM routes of the node when every table is owned by it. */
  lemma AllRoutesOwned(fpmRoutes: map<FpmPeer, PeerRouteTable>, node: NodeId, route: Route)
    requires forall peer :: peer in fpmRoutes ==> TableOwned(fpmRoutes[peer], node)
    requires route in AllRoutes(fpmRoutes)
    ensures route.source == Fpm && route.sourceNode == node
    ensures exists peer :: peer in fpmRoutes && route.prefix in fpmRoutes[peer] && fpmRoutes[peer][route.prefix] == route
  {
    var peer :| peer in fpmRoutes && route in fpmRoutes[peer].Values;
    var prefix :| prefix in fpmRoutes[peer] && fpmRoutes[peer][prefix] == route;
    assert TableOwned(fpmRoutes[peer], node);
  }
}
