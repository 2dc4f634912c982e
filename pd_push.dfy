/**
 * PD push: the FPM message the manager builds for a statically sourced
 * prefix, and the sequence of transmissions that sending such messages to
 * channels produces.
 */
module PdPush {
  import opened Wrappers
  import opened FpmTypes
  import opened Reconciler

  /** What message construction reads from the manager. */
  datatype PushConfig = PushConfig(
    pdPushEnabled: bool,
    pdPushNextHopIPv4: Option<IpAddress>,
    pdPushNextHopIPv6: Option<IpAddress>,
    lengths: HeaderLengths)

  /** One message written to one channel. */
  datatype Transmission = Transmission(channel: ChannelId, message: FpmHeader)

  /** The configured next-hop for the prefix's family. */
  function NextHopFor(cfg: PushConfig, prefix: IpPrefix): Option<IpAddress>
  {
    if prefix.IsIp4() then cfg.pdPushNextHopIPv4 else cfg.pdPushNextHopIPv6
  }

  /** Octets of an address of the prefix's family. */
  function AddressByteLength(prefix: IpPrefix): nat
  {
    if prefix.IsIp4() then IP4_BYTE_LENGTH else IP6_BYTE_LENGTH
  }

  /** Sum of the lengths of a list of route attributes. */
  function AttributesLength(attributes: seq<RouteAttribute>): nat
  {
    if |attributes| == 0 then 0 else attributes[0].length + AttributesLength(attributes[1..])
  }

  /**
   * The lengths of a message are computed innermost first: the Netlink length
   * is the attributes plus the rtmsg and Netlink headers, and the FPM length
   * is the Netlink length plus the FPM header.
   */
  predicate LengthsConsistent(m: FpmHeader, lengths: HeaderLengths)
  {
    && m.netlink.length == AttributesLength(m.netlink.rtNetlink.attributes) + lengths.rtNetlink + lengths.netlinkHeader
    && m.length == m.netlink.length + lengths.fpmHeader
  }

  /**
   * The message for one prefix: none when PD push is disabled or the
   * family's next-hop is unset. RouteUpdateContents states what the message
   * holds otherwise.
   */
  function BuildRouteUpdate(cfg: PushConfig, isAdd: bool, prefix: IpPrefix): (r: Option<FpmHeader>)
    ensures r.None? <==> !cfg.pdPushEnabled || NextHopFor(cfg, prefix).None?
  {
    if !cfg.pdPushEnabled then None
    else if prefix.IsIp4() && cfg.pdPushNextHopIPv4.None? then None
    else if !prefix.IsIp4() && cfg.pdPushNextHopIPv6.None? then None
    else
      var L := cfg.lengths;
      var pdPushNextHop := if prefix.IsIp4() then cfg.pdPushNextHopIPv4.value else cfg.pdPushNextHopIPv6.value;
      var netLinkLength := (if prefix.IsIp4() then IP4_BYTE_LENGTH else IP6_BYTE_LENGTH) + L.routeAttributeHeader;
      var addrFamily := if prefix.IsIp4() then Inet else Inet6;
      var raDst := RouteAttribute(netLinkLength, RtaDst(prefix.address));
      var raGateway := RouteAttribute(netLinkLength, RtaGateway(pdPushNextHop));
      var messageLength := raDst.length + raGateway.length + L.rtNetlink;
      var rtNetlink := RtNetlink(addrFamily, prefix.prefixLength, 0, 0, 0, Zebra, 0, FpmTypeNetlink, 0, [raDst, raGateway]);
      var nlMsgType := if isAdd then RtmNewRoute else RtmDelRoute;
      var messageLength := messageLength + L.netlinkHeader;
      var netLink := Netlink(messageLength, nlMsgType, NETLINK_REQUEST | NETLINK_CREATE, 0, 0, rtNetlink);
      var messageLength := messageLength + L.fpmHeader;
      Some(FpmHeader(FPM_VERSION_1, FpmTypeNetlink, messageLength, netLink))
  }

  /**
   * A built message is a NETLINK frame carrying a ZEBRA-originated NEWROUTE
   * (isAdd) or DELROUTE with a DST and a GATEWAY attribute of the family's
   * address size, and its lengths count both attributes and every header.
   */
  lemma RouteUpdateContents(cfg: PushConfig, isAdd: bool, prefix: IpPrefix)
    requires BuildRouteUpdate(cfg, isAdd, prefix).Some?
    ensures var m := BuildRouteUpdate(cfg, isAdd, prefix).value;
      var attrLength := AddressByteLength(prefix) + cfg.lengths.routeAttributeHeader;
      && m.version == FPM_VERSION_1 && m.fpmType == FpmTypeNetlink
      && m.netlink.nlType == (if isAdd then RtmNewRoute else RtmDelRoute)
      && m.netlink.flags == NETLINK_REQUEST | NETLINK_CREATE
      && m.netlink.rtNetlink.protocol == Zebra
      && m.netlink.rtNetlink.addressFamily == (if prefix.IsIp4() then Inet else Inet6)
      && m.netlink.rtNetlink.dstLength == prefix.prefixLength
      && m.netlink.rtNetlink.attributes
         == [RouteAttribute(attrLength, RtaDst(prefix.address)), RouteAttribute(attrLength, RtaGateway(NextHopFor(cfg, prefix).value))]
      && m.length == 2 * attrLength + cfg.lengths.rtNetlink + cfg.lengths.netlinkHeader + cfg.lengths.fpmHeader
      && LengthsConsistent(m, cfg.lengths)
  {
    var attributes := BuildRouteUpdate(cfg, isAdd, prefix).value.netlink.rtNetlink.attributes;
    assert attributes[1..] == [attributes[1]] && [attributes[1]][1..] == [];
    assert AttributesLength([attributes[1]]) == attributes[1].length + AttributesLength([]);
    assert AttributesLength(attributes) == attributes[0].length + attributes[1].length;
  }

  /** The transmission of a message to a channel, if there is a message. */
  function ToChannel(m: Option<FpmHeader>, ch: ChannelId): seq<Transmission>
  {
    if m.Some? then [Transmission(ch, m.value)] else []
  }

  /** Sending the message for each prefix, in order, to one channel. */
  function PushMessages(cfg: PushConfig, isAdd: bool, prefixes: seq<IpPrefix>, ch: ChannelId): (r: seq<Transmission>)
    ensures |r| <= |prefixes|
    ensures !cfg.pdPushEnabled ==> r == []
    ensures cfg.pdPushEnabled && cfg.pdPushNextHopIPv4.Some? && cfg.pdPushNextHopIPv6.Some? ==> |r| == |prefixes|
  {
    if |prefixes| == 0 then []
    else
      var n := |prefixes| - 1;
      PushMessages(cfg, isAdd, prefixes[..n], ch) + ToChannel(BuildRouteUpdate(cfg, isAdd, prefixes[n]), ch)
  }

  /** Sending the message for each prefix to every channel, channel by channel. */
  function Broadcast(cfg: PushConfig, isAdd: bool, prefixes: seq<IpPrefix>, channels: seq<ChannelId>): (r: seq<Transmission>)
    ensures !cfg.pdPushEnabled ==> r == []
  {
    if |channels| == 0 then []
    else
      var n := |channels| - 1;
      Broadcast(cfg, isAdd, prefixes, channels[..n]) + PushMessages(cfg, isAdd, prefixes, channels[n])
  }

  /** The records of an optional store, none when unbound. */
  function RecordsOrNone(records: Option<seq<IpPrefix>>): seq<IpPrefix>
  {
    if records.Some? then records.value else []
  }

  /** The RIP records and then the DHCP records, pushed as additions to one channel. */
  function StaticPushesOn(cfg: PushConfig, rip: Option<seq<IpPrefix>>, dhcp: Option<seq<IpPrefix>>, ch: ChannelId): (r: seq<Transmission>)
  {
    PushMessages(cfg, true, RecordsOrNone(rip), ch) + PushMessages(cfg, true, RecordsOrNone(dhcp), ch)
  }

  /** Pushing the RIP records and then the DHCP records as additions, channel by channel. */
  function StaticPushes(cfg: PushConfig, rip: Option<seq<IpPrefix>>, dhcp: Option<seq<IpPrefix>>, channels: seq<ChannelId>): (r: seq<Transmission>)
    ensures !cfg.pdPushEnabled ==> r == []
  {
    if |channels| == 0 then []
    else
      var n := |channels| - 1;
      StaticPushes(cfg, rip, dhcp, channels[..n]) + StaticPushesOn(cfg, rip, dhcp, channels[n])
  }

  // ---------------------------------------------------------------------------
  // Properties of PD push against the message handler

  /**
   * A pushed message, read back by a manager whose static stores do not hold
   * the prefix, announces (or deletes) exactly the pushed prefix via the
   * pushed next-hop: the record-level round trip.
   */
  lemma PushedRouteReadsBack(pcfg: PushConfig, rcfg: ReconcileConfig, isAdd: bool, prefix: IpPrefix, m: FpmHeader)
    requires BuildRouteUpdate(pcfg, isAdd, prefix) == Some(m)
    requires !RouteInStore(rcfg.ripRecords, prefix) && !RouteInStore(rcfg.dhcpRecords, prefix)
    ensures Classify(rcfg, m) == if isAdd then Announce(prefix, NextHopFor(pcfg, prefix).value) else Delete(prefix)
  {
    RouteUpdateContents(pcfg, isAdd, prefix);
    var attrs := m.netlink.rtNetlink.attributes;
    assert attrs[..1][..0] == [];
    assert LastDst(attrs) == Some(prefix.address);
    assert LastGateway(attrs) == NextHopFor(pcfg, prefix);
  }

  /**
   * A pushed message for a prefix held by the RIP or DHCP store, echoed back
   * to the manager that pushed it, is discarded by loop suppression.
   */
  lemma EchoedPushIsDiscarded(pcfg: PushConfig, rcfg: ReconcileConfig, isAdd: bool, prefix: IpPrefix, m: FpmHeader)
    requires BuildRouteUpdate(pcfg, isAdd, prefix) == Some(m)
    requires rcfg.pdPushNextHopIPv4 == pcfg.pdPushNextHopIPv4 && rcfg.pdPushNextHopIPv6 == pcfg.pdPushNextHopIPv6
    requires RouteInStore(rcfg.ripRecords, prefix) || RouteInStore(rcfg.dhcpRecords, prefix)
    ensures Classify(rcfg, m) == Discard
  {
    RouteUpdateContents(pcfg, isAdd, prefix);
    var attrs := m.netlink.rtNetlink.attributes;
    assert attrs[..1][..0] == [];
    assert LastDst(attrs) == Some(prefix.address);
    assert LastGateway(attrs) == NextHopFor(pcfg, prefix);
  }

  /**
   * Every transmission of a push goes to the given channel and carries the
   * message built for one of the prefixes.
   */
  lemma {:induction false} PushMessagesSound(cfg: PushConfig, isAdd: bool, prefixes: seq<IpPrefix>, ch: ChannelId, k: nat)
    requires k < |PushMessages(cfg, isAdd, prefixes, ch)|
    ensures var t := PushMessages(cfg, isAdd, prefixes, ch)[k];
            && t.channel == ch
            && t.message.netlink.nlType == (if isAdd then RtmNewRoute else RtmDelRoute)
            && exists j :: 0 <= j < |prefixes| && BuildRouteUpdate(cfg, isAdd, prefixes[j]) == Some(t.message)
  {
    var n := |prefixes| - 1;
    var front := PushMessages(cfg, isAdd, prefixes[..n], ch);
    if k < |front| {
      PushMessagesSound(cfg, isAdd, prefixes[..n], ch, k);
      var j :| 0 <= j < n && BuildRouteUpdate(cfg, isAdd, prefixes[..n][j]) == Some(front[k].message);
      assert prefixes[..n][j] == prefixes[j];
    } else {
      assert BuildRouteUpdate(cfg, isAdd, prefixes[n]) == Some(PushMessages(cfg, isAdd, prefixes, ch)[k].message);
      RouteUpdateContents(cfg, isAdd, prefixes[n]);
    }
  }

  /**
   * A broadcast only writes to the given channels, the message built for one
   * of the prefixes, the pushed message type being isAdd's.
   */
  lemma {:induction false} BroadcastSound(cfg: PushConfig, isAdd: bool, prefixes: seq<IpPrefix>, channels: seq<ChannelId>, k: nat)
    requires k < |Broadcast(cfg, isAdd, prefixes, channels)|
    ensures var t := Broadcast(cfg, isAdd, prefixes, channels)[k];
            && t.channel in channels
            && t.message.netlink.nlType == (if isAdd then RtmNewRoute else RtmDelRoute)
            && exists j :: 0 <= j < |prefixes| && BuildRouteUpdate(cfg, isAdd, prefixes[j]) == Some(t.message)
  {
    var n := |channels| - 1;
    var front := Broadcast(cfg, isAdd, prefixes, channels[..n]);
    if k < |front| {
      BroadcastSound(cfg, isAdd, prefixes, channels[..n], k);
      assert front[k].channel in channels[..n];
    } else {
      PushMessagesSound(cfg, isAdd, prefixes, channels[n], k - |front|);
    }
  }

  /** Pushing the static stores only writes NEWROUTE messages of their records, and only to the given channels. */
  lemma {:induction false} StaticPushesSound(cfg: PushConfig, rip: Option<seq<IpPrefix>>, dhcp: Option<seq<IpPrefix>>, channels: seq<ChannelId>, k: nat)
    requires k < |StaticPushes(cfg, rip, dhcp, channels)|
    ensures var t := StaticPushes(cfg, rip, dhcp, channels)[k];
            && t.channel in channels && t.message.netlink.nlType == RtmNewRoute
            && var records := RecordsOrNone(rip) + RecordsOrNone(dhcp);
               exists j :: 0 <= j < |records| && BuildRouteUpdate(cfg, true, records[j]) == Some(t.message)
  {
    var n := |channels| - 1;
    var front := StaticPushes(cfg, rip, dhcp, channels[..n]);
    if k < |front| {
      StaticPushesSound(cfg, rip, dhcp, channels[..n], k);
      assert front[k].channel in channels[..n];
    } else {
      StaticPushesOnIsPush(cfg, rip, dhcp, channels[n]);
      PushMessagesSound(cfg, true, RecordsOrNone(rip) + RecordsOrNone(dhcp), channels[n], k - |front|);
    }
  }

  /** Every prefix has a message: PD push is on and the prefix family's next-hop is set for each. */
  predicate AllBuildable(cfg: PushConfig, isAdd: bool, prefixes: seq<IpPrefix>)
  {
    forall j :: 0 <= j < |prefixes| ==> BuildRouteUpdate(cfg, isAdd, prefixes[j]).Some?
  }

  /** When every prefix has a message, transmission k is prefix k's message, for every k. */
  lemma {:induction false} PushMessagesComplete(cfg: PushConfig, isAdd: bool, prefixes: seq<IpPrefix>, ch: ChannelId)
    requires AllBuildable(cfg, isAdd, prefixes)
    ensures |PushMessages(cfg, isAdd, prefixes, ch)| == |prefixes|
    ensures forall k :: 0 <= k < |prefixes| ==>
              PushMessages(cfg, isAdd, prefixes, ch)[k] == Transmission(ch, BuildRouteUpdate(cfg, isAdd, prefixes[k]).value)
  {
    if |prefixes| > 0 {
      var n := |prefixes| - 1;
      assert forall k :: 0 <= k < n ==> prefixes[..n][k] == prefixes[k];
      PushMessagesComplete(cfg, isAdd, prefixes[..n], ch);
    }
  }

  /** Every channel receives the whole push: |prefixes| transmissions per channel. */
  lemma {:induction false} BroadcastLength(cfg: PushConfig, isAdd: bool, prefixes: seq<IpPrefix>, channels: seq<ChannelId>)
    requires AllBuildable(cfg, isAdd, prefixes)
    ensures |Broadcast(cfg, isAdd, prefixes, channels)| == |channels| * |prefixes|
  {
    if |channels| > 0 {
      var n := |channels| - 1;
      BroadcastLength(cfg, isAdd, prefixes, channels[..n]);
      PushMessagesComplete(cfg, isAdd, prefixes, channels[n]);
      MulSucc(n, |prefixes|);
    }
  }

  /**
   * When every prefix has a message, channel i receives prefix k's message
   * at position i * |prefixes| + k: every channel of the group gets every
   * prefix, channel by channel, in prefix order.
   */
  lemma {:induction false} BroadcastComplete(cfg: PushConfig, isAdd: bool, prefixes: seq<IpPrefix>, channels: seq<ChannelId>, i: nat, k: nat)
    requires AllBuildable(cfg, isAdd, prefixes)
    requires i < |channels| && k < |prefixes|
    ensures |Broadcast(cfg, isAdd, prefixes, channels)| == |channels| * |prefixes|
    ensures i * |prefixes| + k < |channels| * |prefixes|
    ensures Broadcast(cfg, isAdd, prefixes, channels)[i * |prefixes| + k]
            == Transmission(channels[i], BuildRouteUpdate(cfg, isAdd, prefixes[k]).value)
  {
    var n := |channels| - 1;
    BroadcastLength(cfg, isAdd, prefixes, channels);
    BroadcastLength(cfg, isAdd, prefixes, channels[..n]);
    MulSucc(n, |prefixes|);
    if i < n {
      MulStep(i, n, |prefixes|, k);
      BroadcastComplete(cfg, isAdd, prefixes, channels[..n], i, k);
      assert channels[..n][i] == channels[i];
    } else {
      PushMessagesComplete(cfg, isAdd, prefixes, channels[n]);
    }
  }

  /** One more row of width w. */
  lemma MulSucc(n: nat, w: nat)
    ensures n * w + w == (n + 1) * w
  {
  }

  /** A position in row i < n, of rows of width w, lies within the first n rows. */
  lemma {:induction false} MulStep(i: nat, n: nat, w: nat, k: nat)
    requires i < n && k < w
    ensures i * w + k < n * w
    decreases n - i
  {
    MulSucc(i, w);
    if i + 1 < n {
      MulStep(i + 1, n, w, k);
    }
  }

  /**
   * When every RIP and DHCP record has a message, channel i receives record
   * k of the RIP records followed by the DHCP records at position
   * i * width + k, where width is the number of records.
   */
  lemma {:induction false} StaticPushesComplete(cfg: PushConfig, rip: Option<seq<IpPrefix>>, dhcp: Option<seq<IpPrefix>>, channels: seq<ChannelId>, i: nat, k: nat)
    requires AllBuildable(cfg, true, RecordsOrNone(rip) + RecordsOrNone(dhcp))
    requires i < |channels| && k < |RecordsOrNone(rip) + RecordsOrNone(dhcp)|
    ensures var width := |RecordsOrNone(rip) + RecordsOrNone(dhcp)|;
            && |StaticPushes(cfg, rip, dhcp, channels)| == |channels| * width
            && i * width + k < |channels| * width
            && StaticPushes(cfg, rip, dhcp, channels)[i * width + k]
               == Transmission(channels[i], BuildRouteUpdate(cfg, true, (RecordsOrNone(rip) + RecordsOrNone(dhcp))[k]).value)
  {
    var records := RecordsOrNone(rip) + RecordsOrNone(dhcp);
    var width := |records|;
    var n := |channels| - 1;
    StaticPushesLength(cfg, rip, dhcp, channels);
    StaticPushesLength(cfg, rip, dhcp, channels[..n]);
    MulSucc(n, width);
    if i < n {
      MulStep(i, n, width, k);
      StaticPushesComplete(cfg, rip, dhcp, channels[..n], i, k);
      assert channels[..n][i] == channels[i];
    } else {
      StaticPushesOnIsPush(cfg, rip, dhcp, channels[n]);
      PushMessagesComplete(cfg, true, RecordsOrNone(rip) + RecordsOrNone(dhcp), channels[n]);
    }
  }

  /** Pushing two lists of prefixes in turn is pushing their concatenation. */
  lemma {:induction false} PushMessagesConcat(cfg: PushConfig, isAdd: bool, a: seq<IpPrefix>, b: seq<IpPrefix>, ch: ChannelId)
    ensures PushMessages(cfg, isAdd, a + b, ch) == PushMessages(cfg, isAdd, a, ch) + PushMessages(cfg, isAdd, b, ch)
  {
    if |b| == 0 {
      assert a + b == a;
    } else {
      var n := |b| - 1;
      assert (a + b)[..|a| + n] == a + b[..n];
      assert (a + b)[|a| + n] == b[n];
      PushMessagesConcat(cfg, isAdd, a, b[..n], ch);
    }
  }

  /** One channel's static pushes are the push of the RIP records followed by the DHCP records. */
  lemma StaticPushesOnIsPush(cfg: PushConfig, rip: Option<seq<IpPrefix>>, dhcp: Option<seq<IpPrefix>>, ch: ChannelId)
    ensures StaticPushesOn(cfg, rip, dhcp, ch) == PushMessages(cfg, true, RecordsOrNone(rip) + RecordsOrNone(dhcp), ch)
  {
    PushMessagesConcat(cfg, true, RecordsOrNone(rip), RecordsOrNone(dhcp), ch);
  }

  /** Every channel receives all static records. */
  lemma {:induction false} StaticPushesLength(cfg: PushConfig, rip: Option<seq<IpPrefix>>, dhcp: Option<seq<IpPrefix>>, channels: seq<ChannelId>)
    requires AllBuildable(cfg, true, RecordsOrNone(rip) + RecordsOrNone(dhcp))
    ensures |StaticPushes(cfg, rip, dhcp, channels)| == |channels| * |RecordsOrNone(rip) + RecordsOrNone(dhcp)|
  {
    if |channels| > 0 {
      var n := |channels| - 1;
      var width := |RecordsOrNone(rip) + RecordsOrNone(dhcp)|;
      StaticPushesLength(cfg, rip, dhcp, channels[..n]);
      StaticPushesOnIsPush(cfg, rip, dhcp, channels[n]);
      PushMessagesComplete(cfg, true, RecordsOrNone(rip) + RecordsOrNone(dhcp), channels[n]);
      MulSucc(n, width);
    }
  }

  /** Whatever the other prefixes, every prefix that has a message is sent to the channel. */
  lemma {:induction false} PushMessagesSendsEveryBuildable(cfg: PushConfig, isAdd: bool, prefixes: seq<IpPrefix>, ch: ChannelId, j: nat)
    requires j < |prefixes| && BuildRouteUpdate(cfg, isAdd, prefixes[j]).Some?
    ensures Transmission(ch, BuildRouteUpdate(cfg, isAdd, prefixes[j]).value) in PushMessages(cfg, isAdd, prefixes, ch)
  {
    var n := |prefixes| - 1;
    if j < n {
      assert prefixes[..n][j] == prefixes[j];
      PushMessagesSendsEveryBuildable(cfg, isAdd, prefixes[..n], ch, j);
    }
  }

  /** Every channel of a broadcast receives the message of every prefix that has one. */
  lemma {:induction false} BroadcastSendsEveryBuildable(cfg: PushConfig, isAdd: bool, prefixes: seq<IpPrefix>, channels: seq<ChannelId>, i: nat, j: nat)
    requires i < |channels| && j < |prefixes| && BuildRouteUpdate(cfg, isAdd, prefixes[j]).Some?
    ensures Transmission(channels[i], BuildRouteUpdate(cfg, isAdd, prefixes[j]).value) in Broadcast(cfg, isAdd, prefixes, channels)
  {
    var n := |channels| - 1;
    if i < n {
      assert channels[..n][i] == channels[i];
      BroadcastSendsEveryBuildable(cfg, isAdd, prefixes, channels[..n], i, j);
    } else {
      PushMessagesSendsEveryBuildable(cfg, isAdd, prefixes, channels[n], j);
    }
  }

  /** Every channel receives the NEWROUTE message of every RIP or DHCP record that has one. */
  lemma {:induction false} StaticPushesSendEveryBuildable(cfg: PushConfig, rip: Option<seq<IpPrefix>>, dhcp: Option<seq<IpPrefix>>, channels: seq<ChannelId>, i: nat, j: nat)
    requires i < |channels| && j < |RecordsOrNone(rip) + RecordsOrNone(dhcp)|
    requires BuildRouteUpdate(cfg, true, (RecordsOrNone(rip) + RecordsOrNone(dhcp))[j]).Some?
    ensures Transmission(channels[i], BuildRouteUpdate(cfg, true, (RecordsOrNone(rip) + RecordsOrNone(dhcp))[j]).value)
            in StaticPushes(cfg, rip, dhcp, channels)
  {
    var n := |channels| - 1;
    if i < n {
      assert channels[..n][i] == channels[i];
      StaticPushesSendEveryBuildable(cfg, rip, dhcp, channels[..n], i, j);
    } else {
      StaticPushesOnIsPush(cfg, rip, dhcp, channels[n]);
      PushMessagesSendsEveryBuildable(cfg, true, RecordsOrNone(rip) + RecordsOrNone(dhcp), channels[n], j);
    }
  }

  /** One more channel appends that channel's RIP and DHCP pushes. */
  lemma StaticPushesStep(cfg: PushConfig, rip: Option<seq<IpPrefix>>, dhcp: Option<seq<IpPrefix>>, channels: seq<ChannelId>, i: nat)
    requires i < |channels|
    ensures StaticPushes(cfg, rip, dhcp, channels[..i + 1])
            == StaticPushes(cfg, rip, dhcp, channels[..i]) + StaticPushesOn(cfg, rip, dhcp, channels[i])
  {
    assert channels[..i + 1][..i] == channels[..i];
  }
}
