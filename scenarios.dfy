/**
 * Runs of the FPM manager from a fresh instance: the route-store calls and
 * channel writes that a short sequence of events produces.
 */
module FpmScenarios {
  import opened Wrappers
  import opened FpmTypes
  import opened Reconciler
  import opened PdPush
  import opened Fpm

  /** A ZEBRA route message with a DST attribute and, optionally, a GATEWAY attribute. */
  function RouteMessage(nlType: NetlinkMessageType, prefix: IpPrefix, gateway: Option<IpAddress>): FpmHeader
  {
    var dst := [RouteAttribute(0, RtaDst(prefix.address))];
    var attributes := if gateway.Some? then dst + [RouteAttribute(0, RtaGateway(gateway.value))] else dst;
    var family := if prefix.IsIp4() then Inet else Inet6;
    var rtNetlink := RtNetlink(family, prefix.prefixLength, 0, 0, 0, Zebra, 0, FpmTypeNetlink, 0, attributes);
    FpmHeader(FPM_VERSION_1, FpmTypeNetlink, 0, Netlink(0, nlType, NETLINK_REQUEST, 0, 0, rtNetlink))
  }

  /**
   * With no static store bound, a route message is classified by its type
   * and whether it has a gateway: NEWROUTE with a gateway announces, NEWROUTE without one is
   * discarded, DELROUTE deletes and GETROUTE submits nothing.
   */
  lemma RouteMessageClassified(cfg: ReconcileConfig, nlType: NetlinkMessageType, prefix: IpPrefix, gateway: Option<IpAddress>)
    requires cfg.ripRecords.None? && cfg.dhcpRecords.None?
    ensures Classify(cfg, RouteMessage(nlType, prefix, gateway))
            == match nlType
               case RtmNewRoute => if gateway.Some? then Announce(prefix, gateway.value) else Discard
               case RtmDelRoute => Delete(prefix)
               case RtmGetRoute => SubmitNothing
  {
    var attributes := RouteMessage(nlType, prefix, gateway).netlink.rtNetlink.attributes;
    if gateway.Some? {
      assert attributes[..1] == [RouteAttribute(0, RtaDst(prefix.address))];
      assert attributes[..1][..0] == [];
      assert LastDst(attributes) == Some(prefix.address);
    } else {
      assert attributes[..0] == [];
      assert LastGateway(attributes) == None;
    }
  }

  /** A NEWROUTE from a connected peer, with no static store bound. */
  method SendNewRoute(m: FpmManager, peer: FpmPeer, prefix: IpPrefix, gateway: IpAddress)
    requires m.Valid() && m.ripStore == null && m.dhcpStore == null && peer in m.fpmRoutes
    modifies m`fpmRoutes, m`routeStoreLog
    ensures m.Valid()
    ensures var r := Route(Fpm, prefix, gateway, m.localNode);
            var table := old(m.fpmRoutes[peer]);
            && m.fpmRoutes == old(m.fpmRoutes)[peer := table[prefix := r]]
            && m.routeStoreLog == old(m.routeStoreLog) + [Withdraw(if prefix in table then {table[prefix]} else {}), Update({r})]
  {
    RouteMessageClassified(m.ReconcileCfg(), RtmNewRoute, prefix, Some(gateway));
    m.FpmMessage(peer, RouteMessage(RtmNewRoute, prefix, Some(gateway)));
  }

  /** A DELROUTE from a connected peer, with no static store bound. */
  method SendDelRoute(m: FpmManager, peer: FpmPeer, prefix: IpPrefix)
    requires m.Valid() && m.ripStore == null && m.dhcpStore == null && peer in m.fpmRoutes
    modifies m`fpmRoutes, m`routeStoreLog
    ensures m.Valid()
    ensures var table := old(m.fpmRoutes[peer]);
            && (prefix !in table ==> m.fpmRoutes == old(m.fpmRoutes) && m.routeStoreLog == old(m.routeStoreLog))
            && (prefix in table ==>
                  && m.fpmRoutes == old(m.fpmRoutes)[peer := table - {prefix}]
                  && m.routeStoreLog == old(m.routeStoreLog)
                       + [Withdraw({Route(Fpm, prefix, table[prefix].nextHop, m.localNode)}), Update({})])
  {
    RouteMessageClassified(m.ReconcileCfg(), RtmDelRoute, prefix, None);
    m.FpmMessage(peer, RouteMessage(RtmDelRoute, prefix, None));
  }

  /**
   * A peer connects and sends NEWROUTE via gw1, NEWROUTE via gw2 and
   * DELROUTE for one prefix: the first route is swapped out for the second,
   * which is withdrawn at the end, and the peer's table is left empty.
   */
  method ReplaceThenDelete(localNode: NodeId, lengths: HeaderLengths, peer: FpmPeer, prefix: IpPrefix,
                           gw1: IpAddress, gw2: IpAddress, now: int)
    returns (log: seq<RouteStoreCall>, table: PeerRouteTable)
    ensures var r1 := Route(Fpm, prefix, gw1, localNode);
            var r2 := Route(Fpm, prefix, gw2, localNode);
            log == [Withdraw({}), Update({r1}), Withdraw({r1}), Update({r2}), Withdraw({r2}), Update({})]
    ensures table == map[]
  {
    var m := new FpmManager(localNode, lengths);
    var accepted := m.PeerConnected(peer, now);
    var r1 := Route(Fpm, prefix, gw1, localNode);
    var r2 := Route(Fpm, prefix, gw2, localNode);
    SendNewRoute(m, peer, prefix, gw1);
    assert m.fpmRoutes[peer] == map[prefix := r1];
    SendNewRoute(m, peer, prefix, gw2);
    assert m.fpmRoutes[peer] == map[prefix := r2];
    SendDelRoute(m, peer, prefix);
    assert map[prefix := r2] - {prefix} == map[];
    log := m.routeStoreLog;
    table := m.fpmRoutes[peer];
  }

  /** A DELROUTE for a prefix the peer never announced makes no route-store call. */
  method DeleteUnknownPrefix(localNode: NodeId, lengths: HeaderLengths, peer: FpmPeer, prefix: IpPrefix, now: int)
    returns (log: seq<RouteStoreCall>, table: PeerRouteTable)
    ensures log == [] && table == map[]
  {
    var m := new FpmManager(localNode, lengths);
    var accepted := m.PeerConnected(peer, now);
    SendDelRoute(m, peer, prefix);
    log := m.routeStoreLog;
    table := m.fpmRoutes[peer];
  }

  /**
   * A peer connects, announces one route and disconnects with the default
   * clearRoutes: the route is withdrawn and the peer is neither registered
   * nor has a table any more.
   */
  method ConnectAnnounceDisconnect(localNode: NodeId, lengths: HeaderLengths, peer: FpmPeer, prefix: IpPrefix,
                                   gateway: IpAddress, now: int)
    returns (log: seq<RouteStoreCall>, registered: bool, hasTable: bool)
    ensures var r := Route(Fpm, prefix, gateway, localNode);
            log == [Withdraw({}), Update({r}), Withdraw({r}), Update({})]
    ensures !registered && !hasTable
  {
    var m := new FpmManager(localNode, lengths);
    var accepted := m.PeerConnected(peer, now);
    SendNewRoute(m, peer, prefix, gateway);
    assert m.fpmRoutes[peer] == map[prefix := Route(Fpm, prefix, gateway, localNode)];
    assert m.fpmRoutes[peer].Values == {Route(Fpm, prefix, gateway, localNode)};
    var removed := m.PeerDisconnected(peer);
    log := m.routeStoreLog;
    registered := peer in m.peers;
    hasTable := peer in m.fpmRoutes;
  }

  /**
   * Two peers each announce a route; a readiness event with the lock
   * obtained then republishes both routes, as updates only.
   */
  method PartitionRecovery(localNode: NodeId, lengths: HeaderLengths, peer1: FpmPeer, peer2: FpmPeer,
                           prefix1: IpPrefix, prefix2: IpPrefix, gateway: IpAddress, now: int)
    returns (republished: seq<RouteStoreCall>)
    requires peer1 != peer2
    ensures republished == [Withdraw({}), Update({Route(Fpm, prefix1, gateway, localNode), Route(Fpm, prefix2, gateway, localNode)})]
  {
    var m := new FpmManager(localNode, lengths);
    var accepted1 := m.PeerConnected(peer1, now);
    var accepted2 := m.PeerConnected(peer2, now);
    var r1, r2 := Route(Fpm, prefix1, gateway, localNode), Route(Fpm, prefix2, gateway, localNode);
    SendNewRoute(m, peer1, prefix1, gateway);
    SendNewRoute(m, peer2, prefix2, gateway);
    var before := m.routeStoreLog;
    assert m.fpmRoutes == map[peer1 := map[prefix1 := r1], peer2 := map[prefix2 := r2]];
    AllRoutesOfTwoTables(peer1, peer2, prefix1, prefix2, r1, r2);
    m.ClusterEvent(InstanceReady, true);
    republished := m.routeStoreLog[|before|..];
  }

  /** With PD push disabled, a static prefix added is written to no channel. */
  method DisabledPushIsSilent(localNode: NodeId, lengths: HeaderLengths, ch: ChannelId, prefix: IpPrefix)
    returns (sent: seq<Transmission>)
    ensures sent == []
  {
    var m := new FpmManager(localNode, lengths);
    m.AddSessionChannel(ch);
    m.NotifyPrefixStoreEvent(PrefixAdded, prefix);
    sent := m.sent;
  }

  /** The routes of two single-route tables of two peers. */
  lemma AllRoutesOfTwoTables(peer1: FpmPeer, peer2: FpmPeer, prefix1: IpPrefix, prefix2: IpPrefix, r1: Route, r2: Route)
    requires peer1 != peer2
    ensures AllRoutes(map[peer1 := map[prefix1 := r1], peer2 := map[prefix2 := r2]]) == {r1, r2}
  {
    var fpmRoutes := map[peer1 := map[prefix1 := r1], peer2 := map[prefix2 := r2]];
    assert r1 in AllRoutes(fpmRoutes) by {
      assert peer1 in fpmRoutes && fpmRoutes[peer1] == map[prefix1 := r1];
      assert prefix1 in fpmRoutes[peer1] && fpmRoutes[peer1][prefix1] == r1;
      assert r1 in fpmRoutes[peer1].Values;
    }
    assert r2 in AllRoutes(fpmRoutes) by {
      assert peer2 in fpmRoutes && fpmRoutes[peer2] == map[prefix2 := r2];
      assert prefix2 in fpmRoutes[peer2] && fpmRoutes[peer2][prefix2] == r2;
      assert r2 in fpmRoutes[peer2].Values;
    }
  }

  /** Pushing a one-record RIP store to a single channel sends that record's message. */
  lemma OneStaticPush(cfg: PushConfig, prefix: IpPrefix, ch: ChannelId)
    ensures StaticPushes(cfg, Some([prefix]), None, [ch]) == ToChannel(BuildRouteUpdate(cfg, true, prefix), ch)
  {
    assert [ch][..0] == [] && [prefix][..0] == [];
  }

  /**
   * A RIP store is bound while PD push is off, so nothing is sent; turning
   * PD push on with both next-hops configured sends the store's prefix, as
   * a NEWROUTE, to the one session channel.
   */
  method EnablingPushSendsStaticPrefixes(localNode: NodeId, lengths: HeaderLengths, ch: ChannelId, prefix: IpPrefix,
                                         nextHopIPv4: IpAddress, nextHopIPv6: IpAddress)
    returns (sent: seq<Transmission>)
    requires nextHopIPv4.IsIp4() && !nextHopIPv6.IsIp4()
    ensures sent == ToChannel(BuildRouteUpdate(PushConfig(true, Some(nextHopIPv4), Some(nextHopIPv6), lengths), true, prefix), ch)
    ensures |sent| == 1 && sent[0].channel == ch && sent[0].message.netlink.nlType == RtmNewRoute
  {
    var m := new FpmManager(localNode, lengths);
    m.AddSessionChannel(ch);
    var store := new FpmPrefixStore([prefix]);
    m.BindRipStore(store);
    assert m.sent == [];
    m.Modified(Some(ConfigProperties(None, Some(true), Some(nextHopIPv4), Some(nextHopIPv6))), None, None);
    var cfg := PushConfig(true, Some(nextHopIPv4), Some(nextHopIPv6), lengths);
    assert m.PushCfg() == cfg && RecordsOf(m.ripStore) == Some([prefix]) && RecordsOf(m.dhcpStore) == None;
    assert m.allChannels == [ch];
    OneStaticPush(cfg, prefix, ch);
    sent := m.sent;
    RouteUpdateContents(cfg, true, prefix);
  }
}
