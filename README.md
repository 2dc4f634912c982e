# FPM manager model

A Dafny model of the ONOS FPM manager (`FpmManager`), the component that
accepts Forwarding Plane Manager sessions from routing daemons (Zebra/FRR),
turns their Netlink route messages into routes of the ONOS route store, keeps
a cluster-wide registry of connected peers, republishes its routes after a
network partition heals, and pushes statically sourced prefixes (RIP and DHCP
"PD push" records) back to the daemons.

Layout:

- `wrappers.dfy` — `Option`.
- `fpm_types.dfy` — addresses, prefixes, peers, connection records, routes,
  route-store calls, and the decoded FPM / Netlink / rtmsg / route-attribute
  records (the Netlink header layout follows section 2.3.2 of RFC 3549, the
  rtmsg header section 3.1.1).
- `reconciler.dfy` — the pure part of the route-message handler: the
  attribute scan (last `RTA_DST` / last `RTA_GATEWAY` wins), the filters in
  the order of FpmManager.java (`Classify`), an independent one-disjunct-per-filter
  definition of "ignored" (`Filtered`), the effect of one message on a peer's
  table (`Reconcile`), and the union of all tables (`AllRoutes`).
- `pd_push.dfy` — the message built for one pushed prefix
  (`BuildRouteUpdate`) and the transmissions produced by pushing lists of
  prefixes to channels (`PushMessages`, `Broadcast`, `StaticPushes`).
- `fpm_manager.dfy` — `class FpmManager` with the manager's state (peer
  registry, per-peer route tables, configuration, bound prefix stores,
  session channels) and two logs standing for its effects on collaborators:
  `routeStoreLog` (every `withdraw`/`update` call on the route store, in
  order) and `sent` (every message written to a channel, in order). Its
  methods are those of FpmManager.java, each tied by its `ensures` to the
  functions above; `Valid()` is the invariant they keep (route-store calls
  come in withdraw/update pairs, every table holds only FPM routes of the
  local node filed under their own prefix, registry entries are non-empty
  and name their own peer, next-hops have the right family).
- `scenarios.dfy` — complete runs from a fresh manager: announce, replace and
  delete a route; delete an unknown prefix; connect and disconnect; partition
  recovery over two peers; PD push disabled; enabling PD push with a bound
  RIP store.

External inputs become parameters: the connection time (`now`), the
addresses discovered on the local interface (`discoveredIPv4/IPv6`), whether
the distributed lock was obtained (`lockObtained`), and the fixed header
sizes of the protocol layers (`HeaderLengths`).

Behaviour of FpmManager.java that the model keeps as written:

- Loop suppression compares the gateway with the IPv4 next-hop only for an
  IPv4 prefix, but with the IPv6 next-hop for every prefix
  (FpmManager.java:436-438); `SuppressionIgnoresFamilyOfIPv6NextHop` states it.
- `RTM_GETROUTE` still calls the route store, with an empty withdraw and an
  empty update (FpmManager.java:476-481), and a DELROUTE is followed by an
  empty update; the logs record both calls.
- `peerConnected` keeps a table the peer already has (`computeIfAbsent`,
  FpmManager.java:678).
- Tables live in a node-local map that only `peerConnected` and the message
  handler fill, and with `clearRoutes` off a table outlives its session, so a
  peer can have a table without a registry entry.
- Disabling PD push keeps the configured next-hops (FpmManager.java:264-324).

## Model

| member | source | states |
|---|---|---|
| Reconciler.LastDst | apps/routing/fpm/app/src/main/java/org/onosproject/routing/fpm/FpmManager.java:419-427 | none exactly when no attribute is an RTA_DST; otherwise the address of an RTA_DST with no RTA_DST after it |
| Reconciler.LastGateway | apps/routing/fpm/app/src/main/java/org/onosproject/routing/fpm/FpmManager.java:419-427 | none exactly when no attribute is an RTA_GATEWAY; otherwise the address of an RTA_GATEWAY with no RTA_GATEWAY after it |
| Reconciler.ExtractAttributes | apps/routing/fpm/app/src/main/java/org/onosproject/routing/fpm/FpmManager.java:416-427 | the attribute loop leaves the last DST and the last GATEWAY |
| Reconciler.AnyMatch | apps/routing/fpm/app/src/main/java/org/onosproject/routing/fpm/FpmManager.java:384 | anyMatch over the records is true exactly when the prefix is among them |
| Reconciler.RouteInStore | apps/routing/fpm/app/src/main/java/org/onosproject/routing/fpm/FpmManager.java:380-396 | true exactly when a store is bound and holds the prefix |
| Reconciler.SelfPushed | apps/routing/fpm/app/src/main/java/org/onosproject/routing/fpm/FpmManager.java:436-442 | a self-pushed route has a gateway equal to a PD-push next-hop and a prefix held by a bound DHCP or RIP store; a non-IPv4 prefix is matched only against the IPv6 next-hop |
| Reconciler.Classify | apps/routing/fpm/app/src/main/java/org/onosproject/routing/fpm/FpmManager.java:399-453 | discards exactly the messages of the reference definition `Filtered`; an announcement is a NEWROUTE of the last DST with dstLength via the last GATEWAY, a deletion a DELROUTE of the last DST, and a submission of nothing a GETROUTE |
| Reconciler.Reconcile | apps/routing/fpm/app/src/main/java/org/onosproject/routing/fpm/FpmManager.java:449-481 | a message that `Filtered` ignores is dropped; otherwise at most one update and one withdraw, every update is a local FPM route now stored under its prefix, every removed entry is withdrawn, and every replaced entry is withdrawn and its replacement updated |
| Reconciler.AllRoutes | apps/routing/fpm/app/src/main/java/org/onosproject/routing/fpm/FpmManager.java:787-790 | every route of every peer table is republished, and nothing else is |
| Reconciler.DiscardIffFiltered | apps/routing/fpm/app/src/main/java/org/onosproject/routing/fpm/FpmManager.java:398-452 | a message is discarded exactly when it is a keepalive, has another protocol, lacks a DST, is self-pushed, or is a NEWROUTE without a gateway |
| Reconciler.FilteredIsDropped | apps/routing/fpm/app/src/main/java/org/onosproject/routing/fpm/FpmManager.java:398-452 | an ignored message changes no table and makes no route-store call |
| Reconciler.NewRouteIsAnnounced | apps/routing/fpm/app/src/main/java/org/onosproject/routing/fpm/FpmManager.java:434-455 | an unfiltered NEWROUTE announces the last DST with dstLength via the last GATEWAY |
| Reconciler.AnnounceReplaces | apps/routing/fpm/app/src/main/java/org/onosproject/routing/fpm/FpmManager.java:449-464 | NEWROUTE maps the prefix to the new local FPM route, keeps every other entry, updates with the new route and withdraws the replaced one if there was one |
| Reconciler.DeleteUnknownIsDropped | apps/routing/fpm/app/src/main/java/org/onosproject/routing/fpm/FpmManager.java:465-470 | DELROUTE of a prefix not in the table changes nothing and makes no call |
| Reconciler.DeleteRemoves | apps/routing/fpm/app/src/main/java/org/onosproject/routing/fpm/FpmManager.java:465-475 | DELROUTE of a known prefix removes exactly that entry and withdraws a route with the stored next-hop, with no update |
| Reconciler.DeleteWithdrawsStoredRoute | apps/routing/fpm/app/src/main/java/org/onosproject/routing/fpm/FpmManager.java:465-475 | in a table owned by the local node the withdrawn route is the stored route itself |
| Reconciler.GetRouteSubmitsNothing | apps/routing/fpm/app/src/main/java/org/onosproject/routing/fpm/FpmManager.java:476-481 | an unfiltered GETROUTE leaves the table and calls the route store with nothing |
| Reconciler.SuppressionIgnoresFamilyOfIPv6NextHop | apps/routing/fpm/app/src/main/java/org/onosproject/routing/fpm/FpmManager.java:436-442 | an IPv4 prefix whose gateway equals the IPv6 next-hop and which the RIP store holds is suppressed |
| Reconciler.ReconcileKeepsOwnership | apps/routing/fpm/app/src/main/java/org/onosproject/routing/fpm/FpmManager.java:449-475 | every table the handler writes holds only FPM routes of the local node under their own prefix |
| Reconciler.AllRoutesOwned | apps/routing/fpm/app/src/main/java/org/onosproject/routing/fpm/FpmManager.java:787-790 | every republished route is an FPM route of the local node stored under its prefix in some peer table |
| PdPush.BuildRouteUpdate | apps/routing/fpm/app/src/main/java/org/onosproject/routing/fpm/FpmManager.java:538-560 | no message exactly when PD push is disabled or the prefix family's next-hop is unset |
| PdPush.RouteUpdateContents | apps/routing/fpm/app/src/main/java/org/onosproject/routing/fpm/FpmManager.java:545-622 | version 1 NETLINK frame; NEWROUTE iff isAdd; REQUEST and CREATE flags; ZEBRA; family and dstLength of the prefix; DST then GATEWAY attributes of length address bytes plus attribute header; total length twice that plus rtmsg, Netlink and FPM headers, each layer's length counting the one inside it |
| PdPush.PushMessages | apps/routing/fpm/app/src/main/java/org/onosproject/routing/fpm/FpmManager.java:508-530 | no more transmissions than prefixes, none when PD push is disabled, one per prefix when both next-hops are set; which messages are sent is stated by PushMessagesSendsEveryBuildable, PushMessagesComplete and PushMessagesSound |
| PdPush.Broadcast | apps/routing/fpm/app/src/main/java/org/onosproject/routing/fpm/FpmManager.java:632-637 | nothing is sent when PD push is disabled |
| PdPush.StaticPushes | apps/routing/fpm/app/src/main/java/org/onosproject/routing/fpm/FpmManager.java:497-506 | nothing is sent when PD push is disabled |
| PdPush.PushMessagesSendsEveryBuildable | apps/routing/fpm/app/src/main/java/org/onosproject/routing/fpm/FpmManager.java:515-516 | whatever the other prefixes, every prefix whose family has a next-hop is sent to the channel |
| PdPush.BroadcastSendsEveryBuildable | apps/routing/fpm/app/src/main/java/org/onosproject/routing/fpm/FpmManager.java:632-637 | every channel receives the message of every prefix that has one |
| PdPush.StaticPushesSendEveryBuildable | apps/routing/fpm/app/src/main/java/org/onosproject/routing/fpm/FpmManager.java:497-530 | every channel receives the NEWROUTE message of every RIP or DHCP record that has one |
| PdPush.PushMessagesComplete | apps/routing/fpm/app/src/main/java/org/onosproject/routing/fpm/FpmManager.java:515-516 | when every prefix has a message, there is one transmission per prefix and transmission k is prefix k's message to the channel |
| PdPush.BroadcastComplete | apps/routing/fpm/app/src/main/java/org/onosproject/routing/fpm/FpmManager.java:632-637 | when every prefix has a message, every channel receives every prefix's message, channel by channel, each in prefix order |
| PdPush.StaticPushesComplete | apps/routing/fpm/app/src/main/java/org/onosproject/routing/fpm/FpmManager.java:497-530 | when every static record has a message, every channel receives every RIP record's and then every DHCP record's NEWROUTE message, in record order |
| PdPush.StaticPushesOnIsPush | apps/routing/fpm/app/src/main/java/org/onosproject/routing/fpm/FpmManager.java:503-506 | one channel's static pushes are the push of the RIP records followed by the DHCP records |
| PdPush.PushMessagesSound | apps/routing/fpm/app/src/main/java/org/onosproject/routing/fpm/FpmManager.java:508-530 | every transmission goes to the given channel with the message type of isAdd and is the message built for one of the prefixes |
| PdPush.BroadcastSound | apps/routing/fpm/app/src/main/java/org/onosproject/routing/fpm/FpmManager.java:632-637 | every transmission of a broadcast goes to one of the channels with the message type of isAdd and is the message built for one of the prefixes |
| PdPush.StaticPushesSound | apps/routing/fpm/app/src/main/java/org/onosproject/routing/fpm/FpmManager.java:497-530 | pushing the static stores sends only NEWROUTE messages built for one of their records, and only to the given channels |
| PdPush.PushedRouteReadsBack | apps/routing/fpm/app/src/main/java/org/onosproject/routing/fpm/FpmManager.java:545-622 | a pushed message read back by the handler (prefix in no static store) announces or deletes exactly the pushed prefix via the pushed next-hop |
| PdPush.EchoedPushIsDiscarded | apps/routing/fpm/app/src/main/java/org/onosproject/routing/fpm/FpmManager.java:436-442 | a pushed message for a prefix held by the RIP or DHCP store, echoed back to the pusher, is discarded |
| Fpm.RecordsOf | apps/routing/fpm/app/src/main/java/org/onosproject/routing/fpm/FpmManager.java:511-512 | the records exactly when a store is bound |
| Fpm.WithoutChannel | apps/routing/fpm/app/src/main/java/org/onosproject/routing/fpm/FpmManager.java:723-725 | the removed channel is absent and every other channel keeps its membership |
| Fpm.FpmManager.constructor | apps/routing/fpm/app/src/main/java/org/onosproject/routing/fpm/FpmManager.java:149-171 | defaults: no peers, no tables, clearRoutes on, PD push off, no next-hops, no stores, no channels |
| Fpm.FpmManager.BindRipStore | apps/routing/fpm/app/src/main/java/org/onosproject/routing/fpm/FpmManager.java:173-181 | binds only when none is bound and the store is given, then pushes its records to every channel; otherwise changes nothing |
| Fpm.FpmManager.UnbindRipStore | apps/routing/fpm/app/src/main/java/org/onosproject/routing/fpm/FpmManager.java:183-188 | unbinds exactly when the given store is the bound one; the input with neither a bound nor a given store, on which the Java code crashes, is excluded |
| Fpm.FpmManager.BindDhcpStore | apps/routing/fpm/app/src/main/java/org/onosproject/routing/fpm/FpmManager.java:190-198 | as BindRipStore, for the DHCP store |
| Fpm.FpmManager.UnbindDhcpStore | apps/routing/fpm/app/src/main/java/org/onosproject/routing/fpm/FpmManager.java:200-205 | as UnbindRipStore, for the DHCP store |
| Fpm.FpmManager.Modified | apps/routing/fpm/app/src/main/java/org/onosproject/routing/fpm/FpmManager.java:252-326 | no properties: nothing changes; otherwise each given property is applied, next-hops are reset only when PD push is enabled, and turning it on from off pushes every static prefix to every channel |
| Fpm.FpmManager.SetPdPushEnabled | apps/routing/fpm/app/src/main/java/org/onosproject/routing/fpm/FpmManager.java:264-324 | the flag takes the property's value; enabling sets both next-hops; only an off-to-on change pushes the static stores |
| Fpm.FpmManager.SetPdPushNextHops | apps/routing/fpm/app/src/main/java/org/onosproject/routing/fpm/FpmManager.java:270-306 | each next-hop is the configured one, or else the discovered one |
| Fpm.FpmManager.RouteInDhcpStore | apps/routing/fpm/app/src/main/java/org/onosproject/routing/fpm/FpmManager.java:380-387 | true exactly when a DHCP store is bound and holds the prefix |
| Fpm.FpmManager.RouteInRipStore | apps/routing/fpm/app/src/main/java/org/onosproject/routing/fpm/FpmManager.java:389-396 | true exactly when a RIP store is bound and holds the prefix |
| Fpm.FpmManager.ClassifyMessage | apps/routing/fpm/app/src/main/java/org/onosproject/routing/fpm/FpmManager.java:398-481 | the early returns of the handler agree with Classify |
| Fpm.FpmManager.FpmMessage | apps/routing/fpm/app/src/main/java/org/onosproject/routing/fpm/FpmManager.java:398-482 | the peer's table and the route-store log change exactly as Reconcile says (nothing for a dropped message, a withdraw/update pair otherwise) and Valid is kept |
| Fpm.FpmManager.UpdateRouteStore | apps/routing/fpm/app/src/main/java/org/onosproject/routing/fpm/FpmManager.java:484-487 | appends the withdraw and then the update, keeping the log paired |
| Fpm.FpmManager.ClearRoutes | apps/routing/fpm/app/src/main/java/org/onosproject/routing/fpm/FpmManager.java:489-495 | removes the peer's table and, if it had one, withdraws all its routes in one call with an empty update |
| Fpm.FpmManager.PeerConnected | apps/routing/fpm/app/src/main/java/org/onosproject/routing/fpm/FpmManager.java:663-680 | accepted exactly when unregistered; then registered with one connection of this node, and given an empty table if it had none; refused changes nothing |
| Fpm.FpmManager.PeerDisconnected | apps/routing/fpm/app/src/main/java/org/onosproject/routing/fpm/FpmManager.java:683-706 | with clearRoutes the table is dropped and its routes withdrawn; one connection of this node is removed if there is one; an emptied entry is removed; other peers are unchanged |
| Fpm.FpmManager.PushFpmRoutes | apps/routing/fpm/app/src/main/java/org/onosproject/routing/fpm/FpmManager.java:787-793 | one call pair: no withdraws, and the union of all peer tables as updates |
| Fpm.FpmManager.ClusterEvent | apps/routing/fpm/app/src/main/java/org/onosproject/routing/fpm/FpmManager.java:753-785 | republishes exactly on INSTANCE_READY with the lock obtained; other events do nothing |
| Fpm.FpmManager.AddSessionChannel | apps/routing/fpm/app/src/main/java/org/onosproject/routing/fpm/FpmManager.java:714-716 | the channel group gains the channel once |
| Fpm.FpmManager.RemoveSessionChannel | apps/routing/fpm/app/src/main/java/org/onosproject/routing/fpm/FpmManager.java:723-725 | the channel group loses the channel |
| Fpm.FpmManager.SendRouteUpdateToChannel | apps/routing/fpm/app/src/main/java/org/onosproject/routing/fpm/FpmManager.java:532-630 | writes the built message to the channel, or nothing when none can be built |
| Fpm.FpmManager.SendRouteUpdate | apps/routing/fpm/app/src/main/java/org/onosproject/routing/fpm/FpmManager.java:632-637 | writes the prefix's message to every channel in order |
| Fpm.FpmManager.PushRecords | apps/routing/fpm/app/src/main/java/org/onosproject/routing/fpm/FpmManager.java:515-516 | writes each record's NEWROUTE message to the channel, in record order |
| Fpm.FpmManager.ProcessRipStaticRoutes | apps/routing/fpm/app/src/main/java/org/onosproject/routing/fpm/FpmManager.java:508-518 | pushes the RIP records to the channel, nothing when no store is bound |
| Fpm.FpmManager.ProcessDhcpStaticRoutes | apps/routing/fpm/app/src/main/java/org/onosproject/routing/fpm/FpmManager.java:520-530 | pushes the DHCP records to the channel, nothing when no store is bound |
| Fpm.FpmManager.ProcessStaticRoutesOn | apps/routing/fpm/app/src/main/java/org/onosproject/routing/fpm/FpmManager.java:503-506 | the RIP pushes and then the DHCP pushes for one channel |
| Fpm.FpmManager.ProcessStaticRoutes | apps/routing/fpm/app/src/main/java/org/onosproject/routing/fpm/FpmManager.java:497-501 | the static pushes for every channel, channel by channel |
| Fpm.FpmManager.NotifyPrefixStoreEvent | apps/routing/fpm/app/src/main/java/org/onosproject/routing/fpm/FpmManager.java:734-750 | an added prefix is broadcast as NEWROUTE, a removed one as DELROUTE |
| Fpm.FpmManager.ToFpmInfo | apps/routing/fpm/app/src/main/java/org/onosproject/routing/fpm/FpmManager.java:643-646 | the given connections and the size of the peer's table, zero without one |
| Fpm.FpmManager.PeerInfos | apps/routing/fpm/app/src/main/java/org/onosproject/routing/fpm/FpmManager.java:649-654 | one entry per registered peer, carrying its connections |
| FpmScenarios.RouteMessageClassified | apps/routing/fpm/app/src/main/java/org/onosproject/routing/fpm/FpmManager.java:398-481 | with no store bound a route message is classified by its type and whether it has a gateway |
| FpmScenarios.ReplaceThenDelete | apps/routing/fpm/app/src/main/java/org/onosproject/routing/fpm/FpmManager.java:449-487 | NEWROUTE gw1, NEWROUTE gw2, DELROUTE: the route store sees (none, r1), (r1, r2), (r2, none) and the table ends empty |
| FpmScenarios.DeleteUnknownPrefix | apps/routing/fpm/app/src/main/java/org/onosproject/routing/fpm/FpmManager.java:465-470 | a DELROUTE for a prefix never announced makes no route-store call |
| FpmScenarios.ConnectAnnounceDisconnect | apps/routing/fpm/app/src/main/java/org/onosproject/routing/fpm/FpmManager.java:683-706 | after one route and a disconnect with clearRoutes the route is withdrawn and the peer is neither registered nor has a table |
| FpmScenarios.PartitionRecovery | apps/routing/fpm/app/src/main/java/org/onosproject/routing/fpm/FpmManager.java:753-793 | a readiness event with the lock republishes both peers' routes as updates only |
| FpmScenarios.DisabledPushIsSilent | apps/routing/fpm/app/src/main/java/org/onosproject/routing/fpm/FpmManager.java:538-540 | with PD push disabled an added static prefix is written to no channel |
| FpmScenarios.EnablingPushSendsStaticPrefixes | apps/routing/fpm/app/src/main/java/org/onosproject/routing/fpm/FpmManager.java:319-321 | turning PD push on sends the bound RIP store's prefix once, as NEWROUTE, to the one channel |

## Left out

- Netty plumbing (server bootstrap, pipeline, idle timeout, `startServer`/`stopServer`, the server channel in the channel group) is I/O; channels are identifiers and a write is a record appended to `sent`.
- `FpmHeader.encode()` and the decoder are not part of this model; messages are the decoded records, and the header sizes (`RT_NETLINK_LENGTH`, `NETLINK_HEADER_LENGTH`, `FPM_HEADER_LENGTH`, `ROUTE_ATTRIBUTE_HEADER_LENGTH`) are parameters: they are defined in `RtNetlink`, `Netlink`, `FpmHeader` and `RouteAttribute`, which are outside this model.
- The `RuntimeException` caught around message construction and encoding is not modelled: construction here cannot fail.
- The distributed lock's asynchronous `tryLock` with its 15-second wait and the `unlock` are reduced to the `lockObtained` parameter of `ClusterEvent`.
- Concurrency: `synchronized`, the concurrent maps and the consistent map are modelled as sequential state; interleavings are not modelled.
- `activate`/`deactivate` (service registration, configuration registration, listener wiring) are lifecycle code around the modelled operations.
- Parsing of configuration strings (`Boolean.parseBoolean`, `Ip4Address.valueOf`, `Ip6Address.valueOf`) is outside the model; `ConfigProperties` holds already parsed values, and the interface scan for the "RUR" interface is the `discoveredIPv4/IPv6` parameters.
- `IpPrefix.valueOf` masking of host bits and its rejection of an out-of-range prefix length are not modelled; a prefix is the DST address paired with the declared length.
- Addresses are abstracted to a version and a number; byte order and octet contents are not modelled.
- `setDelegate`/`unsetDelegate` on the prefix stores and logging are not modelled.
- A prefix store's records are fixed for the lifetime of a store object; changes to a store reach the manager only as `NotifyPrefixStoreEvent`.
- `isPdPushEnabled` is a getter of the `pdPushEnabled` field and has no member of its own.
- Fpm.FpmManager.PeerDisconnected: which of several connections of this node is removed is left open (the source removes "any"); the contract says one such connection is removed.
- PdPush.Broadcast and PdPush.StaticPushes: their own contracts state only the disabled case. What they send is stated by lemmas: BroadcastSound and StaticPushesSound for soundness, and BroadcastComplete and StaticPushesComplete for completeness when every prefix has a message. When only some prefixes have a message (one family's next-hop unset), BroadcastSendsEveryBuildable and StaticPushesSendEveryBuildable state that each of those messages reaches every channel; the positions of these transmissions are not stated.
- Fpm.FpmManager.FpmMessage: an announcement or deletion from a peer with no table makes FpmManager.java throw a `NullPointerException` at `fpmRoutes.get(peer)` (FpmManager.java:457, 466); the precondition `peer in fpmRoutes` for those messages excludes that crash, which is not modelled.
- Fpm.FpmManager.UnbindRipStore and Fpm.FpmManager.UnbindDhcpStore: with no store bound and none given, FpmManager.java throws a `NullPointerException` at `unsetDelegate` (FpmManager.java:184-185, 201-202); the precondition excludes that input, and the crash is not modelled.
- Fpm.FpmManager.AddSessionChannel: `allChannels` keeps channels in insertion order, and the broadcasts write to them in that order. Netty's `DefaultChannelGroup` (FpmManager.java:149) promises no iteration order, so the write order across channels is a choice of the model; only the positions stated by BroadcastComplete and StaticPushesComplete depend on it.
- PdPush.PushMessages: when only some prefixes have a message, PushMessagesSendsEveryBuildable states that each of them is sent, and PushMessagesSound that nothing else is; the positions of these transmissions are not stated.
- Withdraw and Update (`RouteStoreCall`) carry sets of routes, where FpmManager.java passes lists, `routes.values()` and a set (FpmManager.java:444-445, 493, 788-791). Duplicates are lost only if two entries of one table hold equal routes, and under `TableOwned` each route carries its own prefix, so the routes of a table are distinct.
