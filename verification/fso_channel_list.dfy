/**
 * The registry of optical channels, keyed by the transmitter and receiver
 * they join. A channel is identified by a handle; its two devices are read
 * off the channel itself.
 */
module FsoChannelList {
  import opened Results
  import FsoChannel

  /** A channel, identified by a handle. */
  type ChannelId = nat

  /** A transmitter and receiver pair. */
  type Ends = (FsoChannel.DeviceId, FsoChannel.DeviceId)

  /** The registry: the channel of each registered pair and the number of channels added. */
  datatype ChannelList = ChannelList(channels: map<Ends, ChannelId>, count: nat)

  /** The empty registry. */
  const Empty := ChannelList(map[], 0)

  /** The count is the number of registered pairs. */
  predicate Counted(l: ChannelList) { l.count == |l.channels| }

  /** A registry after an addition, with the count it returns. */
  datatype Added = Added(list: ChannelList, count: nat)

  /**
   * Adds a channel under its transmitter and receiver
   * (model/fso-channel-list.cc:30-47): both devices must be set. A new pair
   * stores the channel and bumps the count; a pair already present trips an
   * assertion and is left alone. The count is returned either way.
   */
  function Add(l: ChannelList, id: ChannelId, c: FsoChannel.Channel): (r: Added)
    requires c.link.tx.Some? && c.link.rx.Some?
    ensures r.count == r.list.count
    ensures (c.link.tx.value, c.link.rx.value) in r.list.channels
    ensures (c.link.tx.value, c.link.rx.value) !in l.channels ==>
      r.list == ChannelList(l.channels[(c.link.tx.value, c.link.rx.value) := id], l.count + 1)
    ensures (c.link.tx.value, c.link.rx.value) in l.channels ==> r.list == l
    ensures Counted(l) ==> Counted(r.list)
  {
    var ends := (c.link.tx.value, c.link.rx.value);
    if ends !in l.channels then
      var l' := ChannelList(l.channels[ends := id], l.count + 1);
      Added(l', l'.count)
    else
      Added(l, l.count)
  }

  /**
   * The channel between a transmitter and a receiver
   * (model/fso-channel-list.cc:49-63), or none when the pair was never
   * added; looking does not register anything.
   */
  function Get(l: ChannelList, tx: FsoChannel.DeviceId, rx: FsoChannel.DeviceId): (r: Option<ChannelId>)
    ensures r.Some? <==> (tx, rx) in l.channels
    ensures r.Some? ==> r.value == l.channels[(tx, rx)]
  {
    if (tx, rx) in l.channels then Some(l.channels[(tx, rx)]) else None
  }

  /** A channel added under a new pair is found under that pair, and every other pair answers as before. */
  lemma AddThenGet(l: ChannelList, id: ChannelId, c: FsoChannel.Channel, tx: FsoChannel.DeviceId, rx: FsoChannel.DeviceId)
    requires c.link.tx.Some? && c.link.rx.Some?
    requires (c.link.tx.value, c.link.rx.value) !in l.channels
    ensures Get(Add(l, id, c).list, c.link.tx.value, c.link.rx.value) == Some(id)
    ensures (tx, rx) != (c.link.tx.value, c.link.rx.value) ==> Get(Add(l, id, c).list, tx, rx) == Get(l, tx, rx)
  {
  }

  /** Adding the same pair twice registers it once: the second addition returns the same count. */
  lemma AddTwice(l: ChannelList, id: ChannelId, other: ChannelId, c: FsoChannel.Channel)
    requires c.link.tx.Some? && c.link.rx.Some? && Counted(l)
    requires (c.link.tx.value, c.link.rx.value) !in l.channels
    ensures Add(Add(l, id, c).list, other, c).count == Add(l, id, c).count == l.count + 1
    ensures Get(Add(Add(l, id, c).list, other, c).list, c.link.tx.value, c.link.rx.value) == Some(id)
  {
  }
}
