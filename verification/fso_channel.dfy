/**
 * The session of one free-space optical link between a transmitting and a
 * receiving device. The channel holds a queue of geometry samples; every
 * update pops one sample, points both turntables one sample ahead, decides
 * whether the link is usable and moves through the link states. Simulator
 * events are returned as effects: an immediate call or an action scheduled
 * after a delay. The included angle between two pointings and the current
 * pointing of each turntable are inputs.
 */
module FsoChannel {
  import opened Results
  import opened Turntables
  import opened Adi

  /** Link states (model/fso-channel.h:40-54). */
  datatype LinkState = Unconnected | Connecting | Reconnecting | Disconnected | Connected | ConnectionDone

  /** A channel carries exactly one transmitter and one receiver. */
  const N_DEVICES: nat := 2

  /** The largest pointing error, in radians, at which a turntable still tracks its target. */
  const TRACKING_TOLERANCE: real := 0.000001

  /** The acquisition period armed when a link starts (re)connecting, in seconds. */
  const ACQUISITION_PERIOD: real := 5.0

  /** A device, identified by a handle. */
  type DeviceId = nat

  /** The included angle between two pointings (trigonometry is not modelled). */
  type IncludedAngle = (CoordTurntable, CoordTurntable) -> real

  /** One queued sample: its time, the distance and the pointing each end needs. */
  datatype Sample = Sample(t: real, distance: real, fromSrc: CoordTurntable, fromDst: CoordTurntable)

  /** The link proper: its state, its two devices and the current and predicted targets. */
  datatype Link = Link(
    state: LinkState,
    tx: Option<DeviceId>,
    rx: Option<DeviceId>,
    txCurrTarget: CoordTurntable,
    rxCurrTarget: CoordTurntable,
    txPredTarget: CoordTurntable,
    rxPredTarget: CoordTurntable,
    currDistance: real,
    predDistance: real)

  /** A channel: the link, the device count, the sample queue (front first) and the sending window. */
  datatype Channel = Channel(link: Link, nDevices: nat, samples: seq<Sample>, step: real, sendStart: real, sendStop: real)

  /** What the channel asks of the devices, the turntables and itself. */
  datatype Action =
    | TxConnectionStarted
    | RxConnectionStarted
    | TxConnectionSucceeded
    | RxConnectionSucceeded
    | TxConnectionFailed
    | TxConnectionFinished
    | CancelAcquisition
    | PointTx(at: real, target: CoordTurntable)
    | PointRx(at: real, target: CoordTurntable)
    | Update

  /** An effect: a call made now, or an action scheduled after a delay. */
  datatype Effect = Call(action: Action) | Schedule(delay: real, action: Action)

  /** A channel after an operation, with the effects the operation produced in order. */
  datatype Stepped = Stepped(channel: Channel, effects: seq<Effect>)

  /** A new link state with the effects of the transition. */
  datatype Reaction = Reaction(state: LinkState, effects: seq<Effect>)

  /** A new channel: no devices, no samples, UNCONNECTED, a one-second step (model/fso-channel.h:133-134). */
  function NewChannel(): (c: Channel)
    ensures c.link.state == Unconnected && c.link.tx.None? && c.link.rx.None?
    ensures c.nDevices == 0 && c.samples == [] && DevicesCounted(c)
  {
    Channel(Link(Unconnected, None, None, Origin, Origin, Origin, Origin, 0.0, 0.0), 0, [], 1.0, 0.0, 0.0)
  }

  /** Number of present devices in an optional slot. */
  function Present(d: Option<DeviceId>): nat { if d.Some? then 1 else 0 }

  /** The device count agrees with the occupied slots. */
  predicate DevicesCounted(c: Channel) {
    c.nDevices == Present(c.link.tx) + Present(c.link.rx)
  }

  /** A channel an update may run on: both devices set, counted, and a sample queued. */
  predicate Ready(c: Channel) {
    c.link.tx.Some? && c.link.rx.Some? && c.nDevices == N_DEVICES && |c.samples| > 0
  }

  /**
   * Sets the transmitter (model/fso-channel.cc:121-133): the count grows only
   * when the slot was empty, and may not pass two.
   */
  function SetTxDevice(c: Channel, d: DeviceId): (r: Channel)
    requires c.link.tx.None? ==> c.nDevices + 1 <= N_DEVICES
    ensures r.link.tx == Some(d) && (c.link.tx.None? ==> r.nDevices <= N_DEVICES)
    ensures r.nDevices == c.nDevices || (c.link.tx.None? && r.nDevices == c.nDevices + 1)
    ensures r.link.rx == c.link.rx && r.link.state == c.link.state && r.samples == c.samples
    ensures DevicesCounted(c) ==> DevicesCounted(r)
  {
    var n := if c.link.tx.None? then c.nDevices + 1 else c.nDevices;
    c.(link := c.link.(tx := Some(d)), nDevices := n)
  }

  /** Sets the receiver (model/fso-channel.cc:135-147), with the same counting rule. */
  function SetRxDevice(c: Channel, d: DeviceId): (r: Channel)
    requires c.link.rx.None? ==> c.nDevices + 1 <= N_DEVICES
    ensures r.link.rx == Some(d) && (c.link.rx.None? ==> r.nDevices <= N_DEVICES)
    ensures r.nDevices == c.nDevices || (c.link.rx.None? && r.nDevices == c.nDevices + 1)
    ensures r.link.tx == c.link.tx && r.link.state == c.link.state && r.samples == c.samples
    ensures DevicesCounted(c) ==> DevicesCounted(r)
  {
    var n := if c.link.rx.None? then c.nDevices + 1 else c.nDevices;
    c.(link := c.link.(rx := Some(d)), nDevices := n)
  }

  /** A counted channel never violates the device-count assertion of either setter. */
  lemma CountedSettersAllowed(c: Channel)
    requires DevicesCounted(c)
    ensures c.link.tx.None? ==> c.nDevices + 1 <= N_DEVICES
    ensures c.link.rx.None? ==> c.nDevices + 1 <= N_DEVICES
  {
  }

  /**
   * The device at an index (model/fso-channel.cc:182-195): index 0 is the
   * transmitter, every other index below two the receiver.
   */
  function GetDevice(c: Channel, i: nat): (r: DeviceId)
    requires i < N_DEVICES
    requires i == 0 ==> c.link.tx.Some?
    requires i != 0 ==> c.link.rx.Some?
    ensures Some(r) == (if i == 0 then c.link.tx else c.link.rx)
  {
    if i == 0 then c.link.tx.value else c.link.rx.value
  }

  /**
   * Pops one sample (model/fso-channel.cc:377-393): it becomes the current
   * target and distance; when another sample remains it becomes the
   * predicted target and both turntables are commanded to it at its time.
   */
  function DoSwing(c: Channel): (r: Stepped)
    requires |c.samples| > 0
    ensures r.channel.samples == c.samples[1..]
    ensures r.channel.link.txCurrTarget == c.samples[0].fromSrc
    ensures r.channel.link.rxCurrTarget == c.samples[0].fromDst
    ensures r.channel.link.currDistance == c.samples[0].distance
    ensures |c.samples| > 1 ==>
      var next := c.samples[1];
      && r.channel.link.txPredTarget == next.fromSrc
      && r.channel.link.rxPredTarget == next.fromDst
      && r.channel.link.predDistance == next.distance
      && r.effects == [Call(PointTx(next.t, next.fromSrc)), Call(PointRx(next.t, next.fromDst))]
    ensures |c.samples| == 1 ==> r.effects == [] && r.channel.link.(txCurrTarget := c.link.txCurrTarget, rxCurrTarget := c.link.rxCurrTarget, currDistance := c.link.currDistance) == c.link
    ensures r.channel.link.state == c.link.state && r.channel.link.tx == c.link.tx && r.channel.link.rx == c.link.rx
    ensures r.channel.nDevices == c.nDevices && r.channel.step == c.step
  {
    var front := c.samples[0];
    var rest := c.samples[1..];
    var link := c.link.(txCurrTarget := front.fromSrc, rxCurrTarget := front.fromDst, currDistance := front.distance);
    if |rest| == 0 then
      Stepped(c.(link := link, samples := rest), [])
    else
      var next := rest[0];
      var predicted := link.(txPredTarget := next.fromSrc, rxPredTarget := next.fromDst, predDistance := next.distance);
      Stepped(c.(link := predicted, samples := rest), [Call(PointTx(next.t, next.fromSrc)), Call(PointRx(next.t, next.fromDst))])
  }

  /**
   * The link is usable when both turntables point within the tolerance of
   * their current targets and the current distance is within range
   * (model/fso-channel.cc:287-292).
   */
  predicate Usable(l: Link, angle: IncludedAngle, txPointing: CoordTurntable, rxPointing: CoordTurntable) {
    && angle(l.txCurrTarget, txPointing) < TRACKING_TOLERANCE
    && angle(l.rxCurrTarget, rxPointing) < TRACKING_TOLERANCE
    && l.currDistance <= K_MAX_DISTANCE
  }

  /** The transitions an update may make, besides staying put, as the state comments describe them. */
  const UPDATE_EDGES: set<(LinkState, LinkState)> := {
    (Unconnected, Connecting), (Connecting, Unconnected),
    (Disconnected, Reconnecting), (Reconnecting, Disconnected),
    (Connected, Disconnected)
  }

  /** True iff the effects arm the acquisition event. */
  predicate Arms(fx: seq<Effect>) { Schedule(ACQUISITION_PERIOD, TxConnectionSucceeded) in fx }

  /** True iff the effects announce a connection start to both devices. */
  predicate Announces(fx: seq<Effect>) {
    Schedule(0.0, TxConnectionStarted) in fx && Schedule(0.0, RxConnectionStarted) in fx
  }

  /** The states in which an acquisition event is outstanding. */
  predicate Acquiring(s: LinkState) { s == Connecting || s == Reconnecting }

  /**
   * The state decision of an update (model/fso-channel.cc:294-330). Usable:
   * a never-connected link starts connecting and announces it, a dropped
   * link starts reconnecting, and both arm the acquisition event. Unusable:
   * a pending acquisition is cancelled and the link falls back, and a
   * connected link drops and reports the failure to the transmitter.
   */
  function React(s: LinkState, usable: bool): (r: Reaction)
    ensures s == r.state || (s, r.state) in UPDATE_EDGES
    ensures r.state == Connected <==> s == Connected && usable
    ensures Arms(r.effects) <==> usable && (s == Unconnected || s == Disconnected)
    ensures Arms(r.effects) <==> !Acquiring(s) && Acquiring(r.state)
    ensures Announces(r.effects) <==> s == Unconnected && r.state == Connecting
    ensures Call(CancelAcquisition) in r.effects <==> Acquiring(s) && !Acquiring(r.state)
    ensures Call(CancelAcquisition) in r.effects <==> !usable && Acquiring(s)
    ensures Call(TxConnectionFailed) in r.effects <==> s == Connected && r.state == Disconnected
    ensures s == ConnectionDone ==> r == Reaction(s, [])
  {
    if usable then
      match s
      case Unconnected =>
        Reaction(Connecting, [Schedule(0.0, TxConnectionStarted), Schedule(0.0, RxConnectionStarted),
                              Schedule(ACQUISITION_PERIOD, TxConnectionSucceeded)])
      case Disconnected => Reaction(Reconnecting, [Schedule(ACQUISITION_PERIOD, TxConnectionSucceeded)])
      case _ => Reaction(s, [])
    else
      match s
      case Connecting => Reaction(Unconnected, [Call(CancelAcquisition)])
      case Reconnecting => Reaction(Disconnected, [Call(CancelAcquisition)])
      case Connected => Reaction(Disconnected, [Call(TxConnectionFailed)])
      case _ => Reaction(s, [])
  }

  /**
   * One update (model/fso-channel.cc:269-357): pop a sample, decide the
   * state from the new targets and the turntables' pointings, then either
   * finish the session when the queue ran dry (CONNECTION_DONE, finished
   * notified one step later, no further update) or schedule the next
   * update at the time of the next sample.
   */
  function DoUpdate(c: Channel, now: real, angle: IncludedAngle, txPointing: CoordTurntable, rxPointing: CoordTurntable): (r: Stepped)
    requires Ready(c)
    ensures r.channel.samples == c.samples[1..]
    ensures r.channel.link.tx == c.link.tx && r.channel.link.rx == c.link.rx && r.channel.nDevices == c.nDevices
    ensures |c.samples| == 1 <==> r.channel.link.state == ConnectionDone && Schedule(c.step, TxConnectionFinished) in r.effects
    ensures |c.samples| > 1 ==> r.channel.link.state != ConnectionDone || c.link.state == ConnectionDone
    ensures |c.samples| > 1 ==> Schedule(c.samples[1].t - now, Update) in r.effects
    ensures |c.samples| == 1 ==> forall e :: e in r.effects ==> e.action != Update
    ensures r.channel.link.state == Connected ==> c.link.state == Connected
    ensures c.link.state == ConnectionDone ==> r.channel.link.state == ConnectionDone
    ensures |c.samples| > 1 ==> r.channel.link.state == React(c.link.state, Usable(r.channel.link, angle, txPointing, rxPointing)).state
  {
    var swung := DoSwing(c);
    var d := swung.channel;
    var reaction := React(d.link.state, Usable(d.link, angle, txPointing, rxPointing));
    var effects := swung.effects + reaction.effects;
    if |d.samples| == 0 then
      Stepped(d.(link := d.link.(state := ConnectionDone)), effects + [Schedule(c.step, TxConnectionFinished)])
    else
      Stepped(d.(link := d.link.(state := reaction.state)), effects + [Schedule(d.samples[0].t - now, Update)])
  }

  /** The queued form of a geometry sample (its state bits are not queued). */
  function Queued(d: LinkData): (s: Sample)
    ensures s.t == d.time && s.distance == d.distance && s.fromSrc == d.fromSrc && s.fromDst == d.fromDst
  {
    Sample(d.time, d.distance, d.fromSrc, d.fromDst)
  }

  /** Samples lie strictly after now in strictly increasing time. */
  predicate Ascending(data: seq<LinkData>, now: real) {
    && (forall i :: 0 <= i < |data| ==> data[i].time > now)
    && (forall i :: 0 < i < |data| ==> data[i].time > data[i - 1].time)
  }

  /** A queue whose times strictly increase. */
  predicate Increasing(q: seq<Sample>) {
    forall i, j :: 0 <= i < j < |q| ==> q[i].t < q[j].t
  }

  /**
   * Appends samples and runs an update at once (model/fso-channel.cc:359-375):
   * every new sample must lie after now and after its predecessor.
   */
  function DoAppend(c: Channel, now: real, data: seq<LinkData>, angle: IncludedAngle, txPointing: CoordTurntable, rxPointing: CoordTurntable): (r: Stepped)
    requires Ascending(data, now)
    requires c.link.tx.Some? && c.link.rx.Some? && c.nDevices == N_DEVICES
    requires |c.samples| + |data| > 0
    ensures r.channel.samples == (c.samples + QueueAll(data))[1..]
  {
    DoUpdate(c.(samples := c.samples + QueueAll(data)), now, angle, txPointing, rxPointing)
  }

  /** The queued form of a run of geometry samples, in order. */
  function QueueAll(data: seq<LinkData>): (q: seq<Sample>)
    ensures |q| == |data| && forall i :: 0 <= i < |data| ==> q[i] == Queued(data[i])
  {
    seq(|data|, i requires 0 <= i < |data| => Queued(data[i]))
  }

  /** The appended samples of a fresh queue keep their order, so every scheduled update lies in the future. */
  lemma AppendSchedulesForward(c: Channel, now: real, data: seq<LinkData>, angle: IncludedAngle, txPointing: CoordTurntable, rxPointing: CoordTurntable)
    requires Ascending(data, now) && |data| > 0
    requires c.link.tx.Some? && c.link.rx.Some? && c.nDevices == N_DEVICES && c.samples == []
    ensures Increasing(DoAppend(c, now, data, angle, txPointing, rxPointing).channel.samples)
    ensures forall d, a :: Schedule(d, a) in DoAppend(c, now, data, angle, txPointing, rxPointing).effects && a == Update ==> d > 0.0
  {
    var q := QueueAll(data);
    var queued := c.(samples := q);
    assert c.samples + q == q;
    QueuedTailIncreasing(data, now);
    forall d, a | Schedule(d, a) in DoAppend(c, now, data, angle, txPointing, rxPointing).effects && a == Update
      ensures d > 0.0
    {
      UpdateDelay(queued, now, angle, txPointing, rxPointing, d);
      assert queued.samples[1] == Queued(data[1]);
    }
  }

  /** The queued form of ascending samples, front removed, strictly increases. */
  lemma QueuedTailIncreasing(data: seq<LinkData>, now: real)
    requires Ascending(data, now) && |data| > 0
    ensures Increasing(QueueAll(data)[1..])
  {
    var q := QueueAll(data);
    AscendingIncreasing(data, now);
    forall i, j | 0 <= i < j < |q| - 1
      ensures q[1..][i].t < q[1..][j].t
    {
      assert q[1..][i] == q[i + 1] && q[1..][j] == q[j + 1];
    }
  }

  /** Strictly increasing consecutive times are increasing overall. */
  lemma {:induction false} AscendingIncreasing(data: seq<LinkData>, now: real)
    requires Ascending(data, now)
    ensures forall i, j :: 0 <= i < j < |data| ==> data[i].time < data[j].time
    decreases |data|
  {
    if |data| > 1 {
      var init := data[..|data| - 1];
      assert Ascending(init, now);
      AscendingIncreasing(init, now);
      forall i, j | 0 <= i < j < |data|
        ensures data[i].time < data[j].time
      {
        if j < |data| - 1 {
          assert init[i] == data[i] && init[j] == data[j];
        } else if i < j - 1 {
          assert init[i] == data[i] && init[j - 1] == data[j - 1];
        }
      }
    }
  }

  /** The only update an update schedules is at the next sample's time, so it lies after now when the sample does. */
  lemma UpdateDelay(c: Channel, now: real, angle: IncludedAngle, txPointing: CoordTurntable, rxPointing: CoordTurntable, d: real)
    requires Ready(c)
    requires Schedule(d, Update) in DoUpdate(c, now, angle, txPointing, rxPointing).effects
    ensures |c.samples| > 1 && d == c.samples[1].t - now
  {
    var swung := DoSwing(c);
    var reaction := React(swung.channel.link.state, Usable(swung.channel.link, angle, txPointing, rxPointing));
    assert Schedule(d, Update) !in swung.effects;
    assert Schedule(d, Update) !in reaction.effects;
  }

  /**
   * Starts sending (model/fso-channel.cc:229-240): the link is CONNECTED
   * from now, and the receiver is told after the propagation delay of the
   * current distance. This is the only way into CONNECTED.
   */
  function StartSending(c: Channel, now: real, delay: real -> real): (r: Stepped)
    ensures r.channel.link.state == Connected && r.channel.sendStart == now
    ensures r.effects == [Schedule(delay(c.link.currDistance), RxConnectionSucceeded)]
    ensures r.channel.samples == c.samples && r.channel.nDevices == c.nDevices
    ensures r.channel.link.(state := c.link.state) == c.link
  {
    Stepped(c.(link := c.link.(state := Connected), sendStart := now), [Schedule(delay(c.link.currDistance), RxConnectionSucceeded)])
  }

  /** Stops sending (model/fso-channel.cc:242-247): only the stop time is recorded. */
  function StopSending(c: Channel, now: real): (r: Channel)
    ensures r.sendStop == now && r.(sendStop := c.sendStop) == c
  {
    c.(sendStop := now)
  }

  /**
   * Attaches both devices and queues the samples (model/fso-channel.cc:218-227);
   * the device count must reach exactly two.
   */
  function Attach(c: Channel, tx: DeviceId, rx: DeviceId, now: real, data: seq<LinkData>, angle: IncludedAngle, txPointing: CoordTurntable, rxPointing: CoordTurntable): (r: Stepped)
    requires c.nDevices + (1 - Present(c.link.tx)) + (1 - Present(c.link.rx)) == N_DEVICES
    requires Ascending(data, now) && |c.samples| + |data| > 0
    ensures r.channel.link.tx == Some(tx) && r.channel.link.rx == Some(rx) && r.channel.nDevices == N_DEVICES
  {
    var withTx := SetTxDevice(c, tx);
    var withRx := SetRxDevice(withTx, rx);
    DoAppend(withRx, now, data, angle, txPointing, rxPointing)
  }

  /** After attaching, index 0 names the transmitter and index 1 the receiver. */
  lemma AttachedDevices(c: Channel, tx: DeviceId, rx: DeviceId, now: real, data: seq<LinkData>, angle: IncludedAngle, txPointing: CoordTurntable, rxPointing: CoordTurntable)
    requires c == NewChannel()
    requires Ascending(data, now) && |data| > 0
    ensures GetDevice(Attach(c, tx, rx, now, data, angle, txPointing, rxPointing).channel, 0) == tx
    ensures GetDevice(Attach(c, tx, rx, now, data, angle, txPointing, rxPointing).channel, 1) == rx
  {
  }

  /** The pointings both turntables report at one update. */
  datatype Observation = Observation(txPointing: CoordTurntable, rxPointing: CoordTurntable)

  /**
   * Runs the scheduled updates of a session: the first at now, each later
   * one at the time of the sample it pops, one observation per update.
   */
  function Drive(c: Channel, now: real, angle: IncludedAngle, obs: seq<Observation>): (r: Channel)
    requires Ready(c) && |obs| <= |c.samples|
    ensures r.samples == c.samples[|obs|..]
    ensures r.link.tx == c.link.tx && r.link.rx == c.link.rx && r.nDevices == c.nDevices
    ensures |obs| == |c.samples| ==> r.link.state == ConnectionDone
    ensures 0 < |obs| < |c.samples| ==> r.link.state != ConnectionDone || c.link.state == ConnectionDone
    ensures r.link.state == Connected ==> c.link.state == Connected
    ensures c.link.state == ConnectionDone ==> r.link.state == ConnectionDone
    decreases |obs|
  {
    if |obs| == 0 then c
    else
      var s := DoUpdate(c, now, angle, obs[0].txPointing, obs[0].rxPointing);
      if |s.channel.samples| == 0 then s.channel
      else Drive(s.channel, s.channel.samples[0].t, angle, obs[1..])
  }
}
