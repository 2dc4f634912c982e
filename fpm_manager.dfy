/**
 * The FPM manager: the peer registry, the per-peer route tables, the route
 * store it feeds, the optional RIP and DHCP prefix stores, and PD push onto
 * the session channels.
 */
module Fpm {
  import opened Wrappers
  import opened FpmTypes
  import opened Reconciler
  import opened PdPush

  /**
   * A prefix store (RIP or DHCP) the manager can be bound to. The manager
   * compares stores by identity and only ever reads their records.
   */
  class FpmPrefixStore {
    const records: seq<IpPrefix>

    constructor (records: seq<IpPrefix>)
      ensures this.records == records
    {
      this.records := records;
    }
  }

  /** The records of a store, none when no store is bound. */
  function RecordsOf(store: FpmPrefixStore?): (r: Option<seq<IpPrefix>>)
    ensures r.Some? <==> store != null
    ensures store != null ==> r.value == store.records
  {
    if store == null then None else Some(store.records)
  }

  /** Route-store calls come in pairs: a withdraw and then an update, never anything else. */
  predicate WellPaired(log: seq<RouteStoreCall>)
  {
    && |log| % 2 == 0
    && forall i :: 0 <= i < |log| ==> (log[i].Withdraw? <==> i % 2 == 0)
  }

  /** Appending to a log in two steps appends the concatenation. */
  lemma AppendAssoc<T>(a: seq<T>, b: seq<T>, c: seq<T>)
    ensures a + (b + c) == (a + b) + c
  {
  }

  /** A channel group without one channel. */
  function WithoutChannel(channels: seq<ChannelId>, ch: ChannelId): (r: seq<ChannelId>)
    ensures ch !in r
    ensures forall c :: c != ch ==> (c in r <==> c in channels)
    ensures |r| <= |channels|
  {
    if |channels| == 0 then []
    else if channels[0] == ch then WithoutChannel(channels[1..], ch)
    else [channels[0]] + WithoutChannel(channels[1..], ch)
  }

  datatype ClusterEventType = InstanceAdded | InstanceRemoved | InstanceActivated | InstanceReady | InstanceDeactivated

  datatype FpmPrefixStoreEventType = PrefixAdded | PrefixRemoved

  /** Configuration properties, already parsed; a missing property is None. */
  datatype ConfigProperties = ConfigProperties(
    clearRoutes: Option<bool>,
    pdPushEnabled: Option<bool>,
    pdPushNextHopIPv4: Option<IpAddress>,
    pdPushNextHopIPv6: Option<IpAddress>)

  class FpmManager {
    /** The local cluster node. */
    const localNode: NodeId
    /** Fixed header sizes of the FPM protocol layers. */
    const lengths: HeaderLengths

    /** The cluster-wide peer registry. */
    var peers: map<FpmPeer, set<FpmConnectionInfo>>
    /** Routes learnt from each peer connected to this node. */
    var fpmRoutes: map<FpmPeer, PeerRouteTable>
    var clearRoutes: bool
    var pdPushEnabled: bool
    var pdPushNextHopIPv4: Option<IpAddress>
    var pdPushNextHopIPv6: Option<IpAddress>
    var ripStore: FpmPrefixStore?
    var dhcpStore: FpmPrefixStore?
    /** The session channels, in the order they were added. */
    var allChannels: seq<ChannelId>
    /** Every call made to the route store, in order. */
    var routeStoreLog: seq<RouteStoreCall>
    /** Every message written to a channel, in order. */
    var sent: seq<Transmission>

    ghost predicate Valid()
      reads this`routeStoreLog, this`fpmRoutes, this`peers, this`pdPushNextHopIPv4, this`pdPushNextHopIPv6
    {
      && WellPaired(routeStoreLog)
      && (forall peer :: peer in fpmRoutes ==> TableOwned(fpmRoutes[peer], localNode))
      && (forall peer :: peer in peers ==> peers[peer] != {})
      && (forall peer, info :: peer in peers && info in peers[peer] ==> info.peer == peer)
      && (pdPushNextHopIPv4.Some? ==> pdPushNextHopIPv4.value.IsIp4())
      && (pdPushNextHopIPv6.Some? ==> !pdPushNextHopIPv6.value.IsIp4())
    }

    constructor (localNode: NodeId, lengths: HeaderLengths)
      ensures Valid()
      ensures this.localNode == localNode && this.lengths == lengths
      ensures peers == map[] && fpmRoutes == map[]
      ensures clearRoutes && !pdPushEnabled
      ensures pdPushNextHopIPv4 == None && pdPushNextHopIPv6 == None
      ensures ripStore == null && dhcpStore == null
      ensures allChannels == [] && routeStoreLog == [] && sent == []
    {
      this.localNode := localNode;
      this.lengths := lengths;
      peers := map[];
      fpmRoutes := map[];
      clearRoutes := true;
      pdPushEnabled := false;
      pdPushNextHopIPv4 := None;
      pdPushNextHopIPv6 := None;
      ripStore := null;
      dhcpStore := null;
      allChannels := [];
      routeStoreLog := [];
      sent := [];
    }

    /** What the message handler reads besides the peer's table. */
    function ReconcileCfg(): ReconcileConfig
      reads this`pdPushNextHopIPv4, this`pdPushNextHopIPv6, this`ripStore, this`dhcpStore
    {
      ReconcileConfig(localNode, pdPushNextHopIPv4, pdPushNextHopIPv6, RecordsOf(ripStore), RecordsOf(dhcpStore))
    }

    /** What message construction reads. */
    function PushCfg(): PushConfig
      reads this`pdPushEnabled, this`pdPushNextHopIPv4, this`pdPushNextHopIPv6
    {
      PushConfig(pdPushEnabled, pdPushNextHopIPv4, pdPushNextHopIPv6, lengths)
    }

    // -------------------------------------------------------------------------
    // Binding of the optional prefix stores

    method BindRipStore(store: FpmPrefixStore?)
      modifies this`ripStore, this`sent
      ensures old(ripStore) == null && store != null ==>
                ripStore == store && sent == old(sent) + Broadcast(PushCfg(), true, store.records, allChannels)
      ensures !(old(ripStore) == null && store != null) ==> ripStore == old(ripStore) && sent == old(sent)
    {
      if ripStore == null && store != null {
        ripStore := store;
        for i := 0 to |allChannels|
          invariant ripStore == store
          invariant sent == old(sent) + Broadcast(PushCfg(), true, store.records, allChannels[..i])
        {
          assert allChannels[..i + 1][..i] == allChannels[..i];
          ProcessRipStaticRoutes(allChannels[i]);
          AppendAssoc(old(sent), Broadcast(PushCfg(), true, store.records, allChannels[..i]),
                      PushMessages(PushCfg(), true, store.records, allChannels[i]));
        }
        assert allChannels[..|allChannels|] == allChannels;
      }
    }

    /**
     * Unbinding clears the field only when the given store is the bound one.
     * With no store bound and none given, FpmManager.java dereferences the
     * null field; that input is excluded.
     */
    method UnbindRipStore(store: FpmPrefixStore?)
      requires store != null || ripStore != null
      modifies this`ripStore
      ensures ripStore == if old(ripStore) == store then null else old(ripStore)
    {
      if ripStore == store {
        ripStore := null;
      }
    }

    method BindDhcpStore(store: FpmPrefixStore?)
      modifies this`dhcpStore, this`sent
      ensures old(dhcpStore) == null && store != null ==>
                dhcpStore == store && sent == old(sent) + Broadcast(PushCfg(), true, store.records, allChannels)
      ensures !(old(dhcpStore) == null && store != null) ==> dhcpStore == old(dhcpStore) && sent == old(sent)
    {
      if dhcpStore == null && store != null {
        dhcpStore := store;
        for i := 0 to |allChannels|
          invariant dhcpStore == store
          invariant sent == old(sent) + Broadcast(PushCfg(), true, store.records, allChannels[..i])
        {
          assert allChannels[..i + 1][..i] == allChannels[..i];
          ProcessDhcpStaticRoutes(allChannels[i]);
          AppendAssoc(old(sent), Broadcast(PushCfg(), true, store.records, allChannels[..i]),
                      PushMessages(PushCfg(), true, store.records, allChannels[i]));
        }
        assert allChannels[..|allChannels|] == allChannels;
      }
    }

    /**
     * Unbinding clears the field only when the given store is the bound one.
     * With no store bound and none given, FpmManager.java dereferences the
     * null field; that input is excluded.
     */
    method UnbindDhcpStore(store: FpmPrefixStore?)
      requires store != null || dhcpStore != null
      modifies this`dhcpStore
      ensures dhcpStore == if old(dhcpStore) == store then null else old(dhcpStore)
    {
      if dhcpStore == store {
        dhcpStore := null;
      }
    }

    // -------------------------------------------------------------------------
    // Configuration

    /**
     * Applies configuration properties. Next-hops not given explicitly are
     * the ones discovered on the local interface; turning PD push on pushes
     * every static prefix to every channel.
     */
    method Modified(properties: Option<ConfigProperties>, discoveredIPv4: Option<IpAddress>, discoveredIPv6: Option<IpAddress>)
      requires Valid()
      requires properties.Some? && properties.value.pdPushNextHopIPv4.Some? ==> properties.value.pdPushNextHopIPv4.value.IsIp4()
      requires properties.Some? && properties.value.pdPushNextHopIPv6.Some? ==> !properties.value.pdPushNextHopIPv6.value.IsIp4()
      requires discoveredIPv4.Some? ==> discoveredIPv4.value.IsIp4()
      requires discoveredIPv6.Some? ==> !discoveredIPv6.value.IsIp4()
      modifies this`clearRoutes, this`pdPushEnabled, this`pdPushNextHopIPv4, this`pdPushNextHopIPv6, this`sent
      ensures Valid()
      ensures properties.None? ==>
                && clearRoutes == old(clearRoutes) && pdPushEnabled == old(pdPushEnabled)
                && pdPushNextHopIPv4 == old(pdPushNextHopIPv4) && pdPushNextHopIPv6 == old(pdPushNextHopIPv6)
                && sent == old(sent)
      ensures properties.Some? ==>
                var p := properties.value;
                && clearRoutes == (if p.clearRoutes.Some? then p.clearRoutes.value else old(clearRoutes))
                && pdPushEnabled == (if p.pdPushEnabled.Some? then p.pdPushEnabled.value else old(pdPushEnabled))
                && (pdPushEnabled && p.pdPushEnabled.Some? ==>
                      && pdPushNextHopIPv4 == (if p.pdPushNextHopIPv4.Some? then p.pdPushNextHopIPv4 else discoveredIPv4)
                      && pdPushNextHopIPv6 == (if p.pdPushNextHopIPv6.Some? then p.pdPushNextHopIPv6 else discoveredIPv6))
                && (!(pdPushEnabled && p.pdPushEnabled.Some?) ==>
                      pdPushNextHopIPv4 == old(pdPushNextHopIPv4) && pdPushNextHopIPv6 == old(pdPushNextHopIPv6))
                && sent == (if pdPushEnabled && !old(pdPushEnabled)
                            then old(sent) + StaticPushes(PushCfg(), RecordsOf(ripStore), RecordsOf(dhcpStore), allChannels)
                            else old(sent))
    {
      if properties.None? {
        return;
      }
      var p := properties.value;
      if p.clearRoutes.Some? {
        clearRoutes := p.clearRoutes.value;
      }
      if p.pdPushEnabled.Some? {
        SetPdPushEnabled(p.pdPushEnabled.value, p.pdPushNextHopIPv4, p.pdPushNextHopIPv6, discoveredIPv4, discoveredIPv6);
      }
    }

    /**
     * The pdPushEnabled property: enabling sets the next-hops, and enabling
     * from disabled pushes every static prefix to every channel. Disabling
     * keeps the next-hops as they were.
     */
    method SetPdPushEnabled(enabled: bool, configuredIPv4: Option<IpAddress>, configuredIPv6: Option<IpAddress>,
                            discoveredIPv4: Option<IpAddress>, discoveredIPv6: Option<IpAddress>)
      requires Valid()
      requires configuredIPv4.Some? ==> configuredIPv4.value.IsIp4()
      requires configuredIPv6.Some? ==> !configuredIPv6.value.IsIp4()
      requires discoveredIPv4.Some? ==> discoveredIPv4.value.IsIp4()
      requires discoveredIPv6.Some? ==> !discoveredIPv6.value.IsIp4()
      modifies this`pdPushEnabled, this`pdPushNextHopIPv4, this`pdPushNextHopIPv6, this`sent
      ensures Valid()
      ensures pdPushEnabled == enabled
      ensures enabled ==>
                && pdPushNextHopIPv4 == (if configuredIPv4.Some? then configuredIPv4 else discoveredIPv4)
                && pdPushNextHopIPv6 == (if configuredIPv6.Some? then configuredIPv6 else discoveredIPv6)
      ensures !enabled ==> pdPushNextHopIPv4 == old(pdPushNextHopIPv4) && pdPushNextHopIPv6 == old(pdPushNextHopIPv6)
      ensures sent == (if enabled && !old(pdPushEnabled)
                       then old(sent) + StaticPushes(PushCfg(), RecordsOf(ripStore), RecordsOf(dhcpStore), allChannels)
                       else old(sent))
    {
      var oldValue := pdPushEnabled;
      pdPushEnabled := enabled;
      if pdPushEnabled {
        SetPdPushNextHops(configuredIPv4, configuredIPv6, discoveredIPv4, discoveredIPv6);
        if !oldValue {
          ProcessStaticRoutes();
        }
      }
    }

    /** The configured next-hops, or else the discovered ones. */
    method SetPdPushNextHops(configuredIPv4: Option<IpAddress>, configuredIPv6: Option<IpAddress>,
                             discoveredIPv4: Option<IpAddress>, discoveredIPv6: Option<IpAddress>)
      modifies this`pdPushNextHopIPv4, this`pdPushNextHopIPv6
      ensures pdPushNextHopIPv4 == if configuredIPv4.Some? then configuredIPv4 else discoveredIPv4
      ensures pdPushNextHopIPv6 == if configuredIPv6.Some? then configuredIPv6 else discoveredIPv6
    {
      pdPushNextHopIPv4 := None;
      pdPushNextHopIPv6 := None;
      if configuredIPv4.Some? {
        pdPushNextHopIPv4 := configuredIPv4;
      }
      if configuredIPv6.Some? {
        pdPushNextHopIPv6 := configuredIPv6;
      }
      if pdPushNextHopIPv4.None? {
        pdPushNextHopIPv4 := discoveredIPv4;
      }
      if pdPushNextHopIPv6.None? {
        pdPushNextHopIPv6 := discoveredIPv6;
      }
    }

    // -------------------------------------------------------------------------
    // Membership in the static prefix stores

    function RouteInDhcpStore(prefix: IpPrefix): (r: bool)
      reads this, dhcpStore
      ensures r <==> dhcpStore != null && prefix in dhcpStore.records
    {
      RouteInStore(RecordsOf(dhcpStore), prefix)
    }

    function RouteInRipStore(prefix: IpPrefix): (r: bool)
      reads this, ripStore
      ensures r <==> ripStore != null && prefix in ripStore.records
    {
      RouteInStore(RecordsOf(ripStore), prefix)
    }

    // -------------------------------------------------------------------------
    // Route messages from a peer

    /**
     * The filters of the message handler, in the order of FpmManager.java: a keepalive,
     * a protocol other than ZEBRA or UNSPEC, a missing DST, a self-pushed
     * route and a NEWROUTE without a gateway are discarded. Changes nothing.
     */
    method ClassifyMessage(fpmMessage: FpmHeader) returns (action: RouteAction)
      ensures action == Classify(ReconcileCfg(), fpmMessage)
    {
      if fpmMessage.fpmType == FpmTypeKeepalive {
        return Discard;
      }
      var netlink := fpmMessage.netlink;
      var rtNetlink := netlink.rtNetlink;
      if !(rtNetlink.protocol == Zebra || rtNetlink.protocol == Unspec) {
        return Discard;
      }
      var dstAddress, gateway := ExtractAttributes(rtNetlink.attributes);
      if dstAddress.None? {
        return Discard;
      }
      var prefix := IpPrefix(dstAddress.value, rtNetlink.dstLength);
      // Ignore routes that this manager pushed itself.
      if gateway.Some? && ((prefix.IsIp4() && gateway == pdPushNextHopIPv4) || gateway == pdPushNextHopIPv6) {
        if RouteInDhcpStore(prefix) || RouteInRipStore(prefix) {
          return Discard;
        }
      }
      match netlink.nlType {
      case RtmNewRoute =>
        if gateway.None? {
          // Interface routes without a gateway are not supported.
          return Discard;
        }
        return Announce(prefix, gateway.value);
      case RtmDelRoute =>
        return Delete(prefix);
      case RtmGetRoute =>
        return SubmitNothing;
      }
    }

    /**
     * Handles one decoded message from a peer: the peer's table and the route
     * store change exactly as Reconcile says, and nothing else does.
     */
    method FpmMessage(peer: FpmPeer, fpmMessage: FpmHeader)
      requires Valid()
      requires Classify(ReconcileCfg(), fpmMessage).Announce? || Classify(ReconcileCfg(), fpmMessage).Delete? ==> peer in fpmRoutes
      modifies this`fpmRoutes, this`routeStoreLog
      ensures Valid()
      ensures var outcome := Reconcile(ReconcileCfg(), TableOf(old(fpmRoutes), peer), fpmMessage);
              && (outcome.Dropped? ==> fpmRoutes == old(fpmRoutes) && routeStoreLog == old(routeStoreLog))
              && (outcome.Submitted? ==>
                    && fpmRoutes == (if outcome.table.Some? then old(fpmRoutes)[peer := outcome.table.value] else old(fpmRoutes))
                    && routeStoreLog == old(routeStoreLog) + [Withdraw(outcome.withdraws), Update(outcome.updates)])
    {
      ghost var cfg := ReconcileCfg();
      var action := ClassifyMessage(fpmMessage);
      var updates: set<Route> := {};
      var withdraws: set<Route> := {};
      match action {
      case Discard =>
        return;
      case Announce(prefix, nextHop) =>
        var route := Route(Fpm, prefix, nextHop, localNode);
        var table := fpmRoutes[peer];
        var oldRoute := if prefix in table then Some(table[prefix]) else None;
        fpmRoutes := fpmRoutes[peer := table[prefix := route]];
        if oldRoute.Some? {
          withdraws := withdraws + {oldRoute.value};
        }
        updates := updates + {route};
        assert withdraws == (if prefix in table then {table[prefix]} else {});
        assert Reconcile(cfg, TableOf(old(fpmRoutes), peer), fpmMessage) == Submitted(Some(table[prefix := route]), updates, withdraws);
        ReconcileKeepsOwnership(cfg, table, fpmMessage);
      case Delete(prefix) =>
        var table := fpmRoutes[peer];
        if prefix !in table {
          return;
        }
        var existing := table[prefix];
        fpmRoutes := fpmRoutes[peer := table - {prefix}];
        var route := Route(Fpm, prefix, existing.nextHop, localNode);
        withdraws := withdraws + {route};
        assert Reconcile(cfg, TableOf(old(fpmRoutes), peer), fpmMessage) == Submitted(Some(table - {prefix}), updates, withdraws);
        ReconcileKeepsOwnership(cfg, table, fpmMessage);
      case SubmitNothing =>
      }
      UpdateRouteStore(updates, withdraws);
      assert ReconcileCfg() == cfg;
    }

    /** Submits withdraws strictly before updates. */
    method UpdateRouteStore(routesToAdd: set<Route>, routesToRemove: set<Route>)
      requires WellPaired(routeStoreLog)
      modifies this`routeStoreLog
      ensures routeStoreLog == old(routeStoreLog) + [Withdraw(routesToRemove), Update(routesToAdd)]
      ensures WellPaired(routeStoreLog)
    {
      routeStoreLog := routeStoreLog + [Withdraw(routesToRemove)];
      routeStoreLog := routeStoreLog + [Update(routesToAdd)];
    }

    /** Drops a peer's table and withdraws all of its routes in one call. */
    method ClearRoutes(peer: FpmPeer)
      requires Valid()
      modifies this`fpmRoutes, this`routeStoreLog
      ensures Valid()
      ensures fpmRoutes == old(fpmRoutes) - {peer}
      ensures routeStoreLog == old(routeStoreLog)
                + (if peer in old(fpmRoutes) then [Withdraw(old(fpmRoutes)[peer].Values), Update({})] else [])
    {
      if peer in fpmRoutes {
        var routes := fpmRoutes[peer];
        fpmRoutes := fpmRoutes - {peer};
        UpdateRouteStore({}, routes.Values);
      } else {
        fpmRoutes := fpmRoutes - {peer};
      }
    }

    // -------------------------------------------------------------------------
    // Peer lifecycle

    /**
     * Registers a peer connecting to this node; refused when the peer is
     * already registered. An existing table of the peer is kept.
     */
    method PeerConnected(peer: FpmPeer, now: int) returns (accepted: bool)
      requires Valid()
      modifies this`peers, this`fpmRoutes
      ensures Valid()
      ensures accepted <==> peer !in old(peers)
      ensures !accepted ==> peers == old(peers) && fpmRoutes == old(fpmRoutes)
      ensures accepted ==> peers == old(peers)[peer := {FpmConnectionInfo(localNode, peer, now)}]
      ensures accepted ==> fpmRoutes == if peer in old(fpmRoutes) then old(fpmRoutes) else old(fpmRoutes)[peer := map[]]
    {
      if peer in peers {
        return false;
      }
      // The registry has no entry for the peer, so the connection set starts empty.
      var infos: set<FpmConnectionInfo> := {};
      infos := infos + {FpmConnectionInfo(localNode, peer, now)};
      assert infos == {FpmConnectionInfo(localNode, peer, now)};
      peers := peers[peer := infos];
      if peer !in fpmRoutes {
        fpmRoutes := fpmRoutes[peer := map[]];
      }
      return true;
    }

    /**
     * A peer's session went down: with clearRoutes its table is dropped and
     * its routes withdrawn; one connection of this node is removed from the
     * registry and an entry left empty is removed. `removed` names the
     * connection taken out, if any.
     */
    method PeerDisconnected(peer: FpmPeer) returns (ghost removed: Option<FpmConnectionInfo>)
      requires Valid()
      modifies this`peers, this`fpmRoutes, this`routeStoreLog
      ensures Valid()
      ensures fpmRoutes == if clearRoutes then old(fpmRoutes) - {peer} else old(fpmRoutes)
      ensures routeStoreLog == old(routeStoreLog)
                + (if clearRoutes && peer in old(fpmRoutes) then [Withdraw(old(fpmRoutes)[peer].Values), Update({})] else [])
      ensures removed.Some? <==> peer in old(peers) && exists i :: i in old(peers)[peer] && i.connectedTo == localNode
      ensures removed.Some? ==> removed.value in old(peers)[peer] && removed.value.connectedTo == localNode
      ensures peers - {peer} == old(peers) - {peer}
      ensures peer !in old(peers) ==> peer !in peers
      ensures peer in old(peers) ==>
                var rest := old(peers)[peer] - (if removed.Some? then {removed.value} else {});
                if rest == {} then peer !in peers else peer in peers && peers[peer] == rest
    {
      if clearRoutes {
        ClearRoutes(peer);
      }
      removed := None;
      if peer in peers {
        var infos := peers[peer];
        if exists i :: i in infos && i.connectedTo == localNode {
          var i :| i in infos && i.connectedTo == localNode;
          infos := infos - {i};
          removed := Some(i);
        }
        if infos == {} {
          peers := peers - {peer};
        } else {
          peers := peers[peer := infos];
        }
      }
    }

    // -------------------------------------------------------------------------
    // Partition recovery

    /** Republishes every route of every local peer table, as updates only. */
    method PushFpmRoutes()
      requires Valid()
      modifies this`routeStoreLog
      ensures Valid()
      ensures routeStoreLog == old(routeStoreLog) + [Withdraw({}), Update(AllRoutes(fpmRoutes))]
    {
      var routes := AllRoutes(fpmRoutes);
      UpdateRouteStore(routes, {});
    }

    /** A cluster event: INSTANCE_READY with the lock obtained republishes the routes. */
    method ClusterEvent(eventType: ClusterEventType, lockObtained: bool)
      requires Valid()
      modifies this`routeStoreLog
      ensures Valid()
      ensures routeStoreLog == old(routeStoreLog)
                + (if eventType == InstanceReady && lockObtained then [Withdraw({}), Update(AllRoutes(fpmRoutes))] else [])
    {
      match eventType
      case InstanceReady =>
        if lockObtained {
          PushFpmRoutes();
        }
      case _ =>
    }

    // -------------------------------------------------------------------------
    // Session channels and PD push

    method AddSessionChannel(ch: ChannelId)
      modifies this`allChannels
      ensures allChannels == if ch in old(allChannels) then old(allChannels) else old(allChannels) + [ch]
    {
      if ch !in allChannels {
        allChannels := allChannels + [ch];
      }
    }

    method RemoveSessionChannel(ch: ChannelId)
      modifies this`allChannels
      ensures allChannels == WithoutChannel(old(allChannels), ch)
    {
      allChannels := WithoutChannel(allChannels, ch);
    }

    /** Writes the message for one prefix to one channel, when it can be built. */
    method SendRouteUpdateToChannel(isAdd: bool, prefix: IpPrefix, ch: ChannelId)
      modifies this`sent
      ensures sent == old(sent) + ToChannel(BuildRouteUpdate(PushCfg(), isAdd, prefix), ch)
    {
      var fpmMessage := BuildRouteUpdate(PushCfg(), isAdd, prefix);
      if fpmMessage.Some? {
        sent := sent + [Transmission(ch, fpmMessage.value)];
      }
    }

    /** Writes the message for one prefix to every channel. */
    method SendRouteUpdate(isAdd: bool, prefix: IpPrefix)
      modifies this`sent
      ensures sent == old(sent) + Broadcast(PushCfg(), isAdd, [prefix], allChannels)
    {
      for i := 0 to |allChannels|
        invariant sent == old(sent) + Broadcast(PushCfg(), isAdd, [prefix], allChannels[..i])
      {
        assert allChannels[..i + 1][..i] == allChannels[..i];
        assert [prefix][..0] == [] && [prefix][..1] == [prefix];
        SendRouteUpdateToChannel(isAdd, prefix, allChannels[i]);
        AppendAssoc(old(sent), Broadcast(PushCfg(), isAdd, [prefix], allChannels[..i]),
                    PushMessages(PushCfg(), isAdd, [prefix], allChannels[i]));
      }
      assert allChannels[..|allChannels|] == allChannels;
    }

    /** Pushes every record of a store as an addition to one channel. */
    method PushRecords(records: seq<IpPrefix>, ch: ChannelId)
      modifies this`sent
      ensures sent == old(sent) + PushMessages(PushCfg(), true, records, ch)
    {
      for i := 0 to |records|
        invariant sent == old(sent) + PushMessages(PushCfg(), true, records[..i], ch)
      {
        assert records[..i + 1][..i] == records[..i];
        SendRouteUpdateToChannel(true, records[i], ch);
        AppendAssoc(old(sent), PushMessages(PushCfg(), true, records[..i], ch),
                    ToChannel(BuildRouteUpdate(PushCfg(), true, records[i]), ch));
      }
      assert records[..|records|] == records;
    }

    method ProcessRipStaticRoutes(ch: ChannelId)
      modifies this`sent
      ensures sent == old(sent) + PushMessages(PushCfg(), true, RecordsOrNone(RecordsOf(ripStore)), ch)
    {
      if ripStore != null {
        PushRecords(ripStore.records, ch);
      }
    }

    method ProcessDhcpStaticRoutes(ch: ChannelId)
      modifies this`sent
      ensures sent == old(sent) + PushMessages(PushCfg(), true, RecordsOrNone(RecordsOf(dhcpStore)), ch)
    {
      if dhcpStore != null {
        PushRecords(dhcpStore.records, ch);
      }
    }

    /** Pushes the RIP and then the DHCP records to one channel. */
    method ProcessStaticRoutesOn(ch: ChannelId)
      modifies this`sent
      ensures sent == old(sent) + StaticPushesOn(PushCfg(), RecordsOf(ripStore), RecordsOf(dhcpStore), ch)
    {
      ProcessRipStaticRoutes(ch);
      ProcessDhcpStaticRoutes(ch);
      AppendAssoc(old(sent), PushMessages(PushCfg(), true, RecordsOrNone(RecordsOf(ripStore)), ch),
                  PushMessages(PushCfg(), true, RecordsOrNone(RecordsOf(dhcpStore)), ch));
    }

    /** Pushes every static prefix to every channel. */
    method ProcessStaticRoutes()
      modifies this`sent
      ensures sent == old(sent) + StaticPushes(PushCfg(), RecordsOf(ripStore), RecordsOf(dhcpStore), allChannels)
    {
      for i := 0 to |allChannels|
        invariant sent == old(sent) + StaticPushes(PushCfg(), RecordsOf(ripStore), RecordsOf(dhcpStore), allChannels[..i])
      {
        ProcessStaticRoutesOn(allChannels[i]);
        StaticPushesStep(PushCfg(), RecordsOf(ripStore), RecordsOf(dhcpStore), allChannels, i);
        AppendAssoc(old(sent), StaticPushes(PushCfg(), RecordsOf(ripStore), RecordsOf(dhcpStore), allChannels[..i]),
                    StaticPushesOn(PushCfg(), RecordsOf(ripStore), RecordsOf(dhcpStore), allChannels[i]));
      }
      assert allChannels[..|allChannels|] == allChannels;
    }

    /** A prefix-store event: an addition pushes NEWROUTE, a removal DELROUTE, to every channel. */
    method NotifyPrefixStoreEvent(eventType: FpmPrefixStoreEventType, prefix: IpPrefix)
      modifies this`sent
      ensures sent == old(sent) + Broadcast(PushCfg(), eventType == PrefixAdded, [prefix], allChannels)
    {
      match eventType
      case PrefixAdded => SendRouteUpdate(true, prefix);
      case PrefixRemoved => SendRouteUpdate(false, prefix);
    }

    // -------------------------------------------------------------------------
    // Query interface

    /** A peer's connections and the number of routes learnt from it. */
    function ToFpmInfo(peer: FpmPeer, connections: set<FpmConnectionInfo>): (info: FpmPeerInfo)
      reads this
      ensures info.connections == connections
      ensures peer !in fpmRoutes ==> info.routeCount == 0
      ensures peer in fpmRoutes ==> info.routeCount == |fpmRoutes[peer].Keys|
    {
      FpmPeerInfo(connections, |TableOf(fpmRoutes, peer)|)
    }

    /** The registry, with each peer's connections and route count. */
    function PeerInfos(): (r: map<FpmPeer, FpmPeerInfo>)
      reads this
      ensures r.Keys == peers.Keys
      ensures forall peer :: peer in r ==> r[peer].connections == peers[peer]
    {
      map peer | peer in peers :: ToFpmInfo(peer, peers[peer])
    }
  }
}
