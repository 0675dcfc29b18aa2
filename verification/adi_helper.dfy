/**
 * The link registration and filtering rules of the geometry helper: which
 * turntables are registered, which device pairs become satellite-to-ground
 * or inter-satellite link requests, which sampled links are good enough to
 * schedule, and how an inter-satellite link's samples are split between its
 * network channel and its optical channel.
 */
module AdiHelper {
  import opened Results
  import opened Turntables
  import opened Adi
  import FsoChannel

  /** The least number of satisfying samples a link needs (helper/adi-helper.h:83). */
  const DEFAULT_MIN_COUNT: nat := 60

  /** The samples an inter-satellite optical channel does not receive, at the end of the run. */
  const ISL_TAIL: nat := 5

  /** A turntable as the registration rules see it: its handle and the face it is mounted on. */
  datatype Mounted = Mounted(id: TurntableId, face: Face)

  /** A link the geometry engine is asked to sample, with the state bits a sample must have and must not have. */
  datatype LinkRule = LinkRule(src: TurntableId, dst: TurntableId, included: bv8, excluded: bv8)

  /** An inter-satellite link: the transmitting and the receiving turntable. */
  type Isl = (TurntableId, TurntableId)

  /**
   * The helper's registries: geometry turntables to simulator turntables,
   * the satellite-to-ground link requests in order, the inter-satellite
   * links in order and the link requests of each.
   */
  datatype Registry = Registry(
    turntables: map<TurntableId, TurntableId>,
    accessRules: seq<LinkRule>,
    isls: seq<Isl>,
    islRules: map<Isl, seq<LinkRule>>)

  /** A registry after a registration, and whether it took place. */
  datatype Registration = Registration(registry: Registry, ok: bool)

  /**
   * Registers a turntable (helper/adi-helper.cc:68-82): a turntable not yet
   * known is mapped to its simulator turntable; a known one trips an
   * assertion (helper/adi-helper.cc:79) and otherwise is refused, the
   * registry left as it was.
   */
  function Register(reg: Registry, adi: TurntableId, ns: TurntableId): (r: Registration)
    ensures r.ok <==> adi !in reg.turntables
    ensures r.ok ==> r.registry == reg.(turntables := reg.turntables[adi := ns])
    ensures !r.ok ==> r.registry == reg
    ensures adi in r.registry.turntables && r.registry.turntables.Keys == reg.turntables.Keys + {adi}
  {
    if adi !in reg.turntables then
      Registration(reg.(turntables := reg.turntables[adi := ns]), true)
    else
      Registration(reg, false)
  }

  /** A turntable registers once: a second registration trips the assertion, or else is refused and keeps the first mapping. */
  lemma RegisterOnce(reg: Registry, adi: TurntableId, ns: TurntableId, again: TurntableId)
    requires adi !in reg.turntables
    ensures !Register(Register(reg, adi, ns).registry, adi, again).ok
    ensures Register(Register(reg, adi, ns).registry, adi, again).registry.turntables[adi] == ns
  {
  }

  /** The bits a satellite-to-ground sample must carry: in view, and both ends see each other. */
  const S2G_INCLUDED: bv8 := IN_FOV | SRC2DST | DST2SRC

  /** The bits a satellite-to-ground sample must not carry: the station in daylight, or out of range. */
  const S2G_EXCLUDED: bv8 := DST_DAY | BEYOND_DISTANCE

  /**
   * The request a device pair makes for a satellite-to-ground link
   * (helper/adi-helper.cc:114-150): only a satellite turntable on the
   * bottom face and a station turntable on the top face, both present.
   */
  function S2GRule(tx: Option<Mounted>, rx: Option<Mounted>): (r: Option<LinkRule>)
    ensures r.Some? <==> tx.Some? && rx.Some? && tx.value.face == Bottom && rx.value.face == Top
    ensures r.Some? ==> r.value.src == tx.value.id && r.value.dst == rx.value.id
    ensures r.Some? ==> HasAny(r.value.included, IN_FOV) && HasAny(r.value.excluded, DST_DAY) && !HasAny(r.value.excluded, SRC_DAY)
    ensures r.Some? ==> r.value.included == IN_FOV | SRC2DST | DST2SRC && r.value.excluded == DST_DAY | BEYOND_DISTANCE
  {
    if tx.Some? && rx.Some? && tx.value.face == Bottom && rx.value.face == Top then
      Some(LinkRule(tx.value.id, rx.value.id, S2G_INCLUDED, S2G_EXCLUDED))
    else
      None
  }

  /** The requests of one transmitter with each receiver, in receiver order. */
  function Row(tx: Option<Mounted>, rxs: seq<Option<Mounted>>): seq<LinkRule>
  {
    if |rxs| == 0 then []
    else
      var last := S2GRule(tx, rxs[|rxs| - 1]);
      Row(tx, rxs[..|rxs| - 1]) + (if last.Some? then [last.value] else [])
  }

  /** The requests of every transmitter with every receiver, transmitter-major. */
  function Grid(txs: seq<Option<Mounted>>, rxs: seq<Option<Mounted>>): seq<LinkRule>
  {
    if |txs| == 0 then []
    else Grid(txs[..|txs| - 1], rxs) + Row(txs[|txs| - 1], rxs)
  }

  /** A request is in a row iff some receiver of the row produces it. */
  lemma {:induction false} RowMembers(tx: Option<Mounted>, rxs: seq<Option<Mounted>>, rule: LinkRule)
    ensures rule in Row(tx, rxs) <==> exists j :: 0 <= j < |rxs| && S2GRule(tx, rxs[j]) == Some(rule)
    decreases |rxs|
  {
    if |rxs| > 0 {
      var init := rxs[..|rxs| - 1];
      RowMembers(tx, init, rule);
      if exists j :: 0 <= j < |rxs| && S2GRule(tx, rxs[j]) == Some(rule) {
        var j :| 0 <= j < |rxs| && S2GRule(tx, rxs[j]) == Some(rule);
        if j < |rxs| - 1 {
          assert init[j] == rxs[j];
        }
      }
      if rule in Row(tx, init) {
        var j :| 0 <= j < |init| && S2GRule(tx, init[j]) == Some(rule);
        assert rxs[j] == init[j];
      }
    }
  }

  /** A request is in the grid iff some transmitter and receiver pair produces it. */
  lemma {:induction false} GridMembers(txs: seq<Option<Mounted>>, rxs: seq<Option<Mounted>>, rule: LinkRule)
    ensures rule in Grid(txs, rxs) <==>
      exists i, j :: 0 <= i < |txs| && 0 <= j < |rxs| && S2GRule(txs[i], rxs[j]) == Some(rule)
    decreases |txs|
  {
    if |txs| > 0 {
      var init := txs[..|txs| - 1];
      var last := txs[|txs| - 1];
      GridMembers(init, rxs, rule);
      RowMembers(last, rxs, rule);
      if exists i, j :: 0 <= i < |txs| && 0 <= j < |rxs| && S2GRule(txs[i], rxs[j]) == Some(rule) {
        var i, j :| 0 <= i < |txs| && 0 <= j < |rxs| && S2GRule(txs[i], rxs[j]) == Some(rule);
        if i < |txs| - 1 {
          assert init[i] == txs[i];
        }
      }
      if rule in Grid(init, rxs) {
        var i, j :| 0 <= i < |init| && 0 <= j < |rxs| && S2GRule(init[i], rxs[j]) == Some(rule);
        assert txs[i] == init[i];
      }
    }
  }

  /** Registers one satellite-to-ground device pair: its request, if any, joins the list. */
  function RegisterS2GPair(reg: Registry, tx: Option<Mounted>, rx: Option<Mounted>): (r: Registry)
    ensures S2GRule(tx, rx).None? ==> r == reg
    ensures S2GRule(tx, rx).Some? ==> r == reg.(accessRules := reg.accessRules + [S2GRule(tx, rx).value])
  {
    var rule := S2GRule(tx, rx);
    if rule.Some? then reg.(accessRules := reg.accessRules + [rule.value]) else reg
  }

  /**
   * Registers every transmitter with every receiver (helper/adi-helper.cc:102-112),
   * transmitter-major.
   */
  method RegisterS2G(reg: Registry, txs: seq<Option<Mounted>>, rxs: seq<Option<Mounted>>) returns (r: Registry)
    ensures r == reg.(accessRules := reg.accessRules + Grid(txs, rxs))
  {
    r := reg;
    var i := 0;
    while i < |txs|
      invariant 0 <= i <= |txs|
      invariant r == reg.(accessRules := reg.accessRules + Grid(txs[..i], rxs))
    {
      r := RegisterRow(r, txs[i], rxs);
      assert txs[..i + 1][..i] == txs[..i];
      i := i + 1;
    }
    assert txs[..|txs|] == txs;
  }

  /** The inner loop of RegisterS2G: one transmitter with every receiver, in order. */
  method RegisterRow(reg: Registry, tx: Option<Mounted>, rxs: seq<Option<Mounted>>) returns (r: Registry)
    ensures r == reg.(accessRules := reg.accessRules + Row(tx, rxs))
  {
    r := reg;
    var j := 0;
    while j < |rxs|
      invariant 0 <= j <= |rxs|
      invariant r == reg.(accessRules := reg.accessRules + Row(tx, rxs[..j]))
    {
      r := RegisterS2GPair(r, tx, rxs[j]);
      assert rxs[..j + 1][..j] == rxs[..j];
      j := j + 1;
    }
    assert rxs[..|rxs|] == rxs;
  }

  /** The bits an inter-satellite sample must carry: both ends see each other. */
  const ISL_INCLUDED: bv8 := SRC2DST | DST2SRC

  /** The bits an inter-satellite sample must not carry: either end in daylight. */
  const ISL_EXCLUDED: bv8 := SRC_DAY | DST_DAY

  /** Faces that look at each other across an inter-satellite link. */
  predicate Facing(a: Face, b: Face) {
    (a == Front && b == Back) || (a == Back && b == Front) || (a == Left && b == Right) || (a == Right && b == Left)
  }

  /** Facing is symmetric, never pairs a face with itself, and never involves the top or bottom face. */
  lemma FacingShape(a: Face, b: Face)
    ensures Facing(a, b) <==> Facing(b, a)
    ensures Facing(a, b) ==> a != b
    ensures Facing(a, b) ==> a !in {Top, Bottom, ErrFace} && b !in {Top, Bottom, ErrFace}
  {
  }

  /** A sequence without repeated entries. */
  predicate Distinct<T(==)>(s: seq<T>) {
    forall i, j :: 0 <= i < j < |s| ==> s[i] != s[j]
  }

  /** Requests are kept only for registered inter-satellite links. */
  predicate RulesRegistered(reg: Registry) {
    forall isl :: isl in reg.islRules ==> isl in reg.isls
  }

  /**
   * Registers one inter-satellite device pair (helper/adi-helper.cc:163-193):
   * a known pair is ignored; a new pair is always recorded, but requests a
   * link only when the two faces look at each other.
   */
  function RegisterISLPair(reg: Registry, src: Mounted, dst: Mounted): (r: Registry)
    ensures (src.id, dst.id) in r.isls
    ensures (src.id, dst.id) in reg.isls ==> r == reg
    ensures (src.id, dst.id) !in reg.isls ==> r.isls == reg.isls + [(src.id, dst.id)]
    ensures Distinct(reg.isls) ==> Distinct(r.isls)
    ensures RulesRegistered(reg) ==> RulesRegistered(r)
    ensures RulesRegistered(reg) && (src.id, dst.id) !in reg.isls ==>
      && ((src.id, dst.id) in r.islRules <==> Facing(src.face, dst.face))
      && (Facing(src.face, dst.face) ==> r.islRules[(src.id, dst.id)] == [LinkRule(src.id, dst.id, ISL_INCLUDED, ISL_EXCLUDED)])
    ensures forall isl :: isl != (src.id, dst.id) && isl in reg.islRules ==> isl in r.islRules && r.islRules[isl] == reg.islRules[isl]
    ensures r.turntables == reg.turntables && r.accessRules == reg.accessRules
  {
    var isl := (src.id, dst.id);
    if isl in reg.isls then reg
    else
      var recorded := reg.(isls := reg.isls + [isl]);
      if Facing(src.face, dst.face) then
        var before := if isl in recorded.islRules then recorded.islRules[isl] else [];
        recorded.(islRules := recorded.islRules[isl := before + [LinkRule(src.id, dst.id, ISL_INCLUDED, ISL_EXCLUDED)]])
      else
        recorded
  }

  /**
   * Registers transmitter i with receiver i for every i
   * (helper/adi-helper.cc:153-161); both lists have the same length.
   */
  method RegisterISL(reg: Registry, txs: seq<Mounted>, rxs: seq<Mounted>) returns (r: Registry)
    requires |txs| == |rxs|
    ensures forall i :: 0 <= i < |txs| ==> (txs[i].id, rxs[i].id) in r.isls
    ensures forall isl :: isl in r.isls ==> isl in reg.isls || exists i :: 0 <= i < |txs| && isl == (txs[i].id, rxs[i].id)
    ensures |reg.isls| <= |r.isls| && r.isls[..|reg.isls|] == reg.isls
    ensures Distinct(reg.isls) ==> Distinct(r.isls)
    ensures RulesRegistered(reg) ==> RulesRegistered(r)
    ensures r.turntables == reg.turntables && r.accessRules == reg.accessRules
  {
    r := reg;
    var i := 0;
    while i < |txs|
      invariant 0 <= i <= |txs|
      invariant forall k :: 0 <= k < i ==> (txs[k].id, rxs[k].id) in r.isls
      invariant forall isl :: isl in r.isls ==> isl in reg.isls || exists k :: 0 <= k < i && isl == (txs[k].id, rxs[k].id)
      invariant |reg.isls| <= |r.isls| && r.isls[..|reg.isls|] == reg.isls
      invariant Distinct(reg.isls) ==> Distinct(r.isls)
      invariant RulesRegistered(reg) ==> RulesRegistered(r)
      invariant r.turntables == reg.turntables && r.accessRules == reg.accessRules
    {
      var next := RegisterISLPair(r, txs[i], rxs[i]);
      assert forall isl :: isl in next.isls ==> isl in r.isls || isl == (txs[i].id, rxs[i].id);
      assert next.isls[..|reg.isls|] == reg.isls by {
        if next != r {
          assert next.isls[..|r.isls|] == r.isls;
        }
      }
      r := next;
      i := i + 1;
    }
  }

  /** A sample satisfies a filter: every included bit set, no excluded bit set, and close enough. */
  predicate Satisfies(d: LinkData, included: bv8, excluded: bv8, maxDistance: real) {
    d.state & included == included && d.state & excluded == 0 && d.distance <= maxDistance
  }

  /** The indices below n of the samples that satisfy a filter. */
  function Satisfying(ds: seq<LinkData>, n: nat, included: bv8, excluded: bv8, maxDistance: real): (s: set<nat>)
    requires n <= |ds|
    ensures forall j: nat :: j in s <==> j < n && Satisfies(ds[j], included, excluded, maxDistance)
  {
    set j: nat | j < n && Satisfies(ds[j], included, excluded, maxDistance)
  }

  /** Extending the prefix by one sample adds its index exactly when it satisfies the filter. */
  lemma SatisfyingStep(ds: seq<LinkData>, n: nat, included: bv8, excluded: bv8, maxDistance: real)
    requires n < |ds|
    ensures |Satisfying(ds, n + 1, included, excluded, maxDistance)| ==
      |Satisfying(ds, n, included, excluded, maxDistance)| + (if Satisfies(ds[n], included, excluded, maxDistance) then 1 else 0)
  {
    var before := Satisfying(ds, n, included, excluded, maxDistance);
    var after := Satisfying(ds, n + 1, included, excluded, maxDistance);
    assert n !in before;
    forall j: nat
      ensures j in after <==> j in before || (j == n && Satisfies(ds[n], included, excluded, maxDistance))
    {
    }
    if Satisfies(ds[n], included, excluded, maxDistance) {
      assert after == before + {n};
    } else {
      assert after == before;
    }
  }

  /**
   * Whether a sampled link has enough satisfying samples
   * (helper/adi-helper.cc:348-375): it counts the samples that pass the
   * filter and compares the count with the minimum, inclusively.
   */
  method IsLinkInfoSatisfied(link: LinkInfo, included: bv8, excluded: bv8, maxDistance: real, minCount: nat) returns (ok: bool)
    ensures ok <==> |Satisfying(link.linkDatas, |link.linkDatas|, included, excluded, maxDistance)| >= minCount
  {
    var ds := link.linkDatas;
    var count := 0;
    var j := 0;
    while j < |ds|
      invariant 0 <= j <= |ds|
      invariant count == |Satisfying(ds, j, included, excluded, maxDistance)|
    {
      SatisfyingStep(ds, j, included, excluded, maxDistance);
      if Satisfies(ds[j], included, excluded, maxDistance) {
        count := count + 1;
      }
      j := j + 1;
    }
    ok := count >= minCount;
  }

  /** Whether a link passes the filter, as a value. */
  predicate Satisfied(link: LinkInfo, included: bv8, excluded: bv8, maxDistance: real, minCount: nat) {
    |Satisfying(link.linkDatas, |link.linkDatas|, included, excluded, maxDistance)| >= minCount
  }

  /**
   * Marks each sampled link with whether it passes the filter
   * (helper/adi-helper.cc:325-346), position by position.
   */
  method DoFindLinkData(links: seq<LinkInfo>, included: bv8, excluded: bv8, maxDistance: real, minCount: nat) returns (r: seq<bool>)
    ensures |r| == |links|
    ensures forall i :: 0 <= i < |links| ==> (r[i] <==> Satisfied(links[i], included, excluded, maxDistance, minCount))
  {
    r := [];
    var i := 0;
    while i < |links|
      invariant 0 <= i <= |links| && |r| == i
      invariant forall k :: 0 <= k < i ==> (r[k] <==> Satisfied(links[k], included, excluded, maxDistance, minCount))
    {
      var ok := IsLinkInfoSatisfied(links[i], included, excluded, maxDistance, minCount);
      r := r + [ok];
      i := i + 1;
    }
  }

  /** Demanding fewer satisfying samples never rejects a link that passed. */
  lemma SatisfiedMonotone(link: LinkInfo, included: bv8, excluded: bv8, maxDistance: real, minCount: nat, fewer: nat)
    requires fewer <= minCount
    ensures Satisfied(link, included, excluded, maxDistance, minCount) ==> Satisfied(link, included, excluded, maxDistance, fewer)
  {
  }

  /** A link passes no stricter a filter than it has samples. */
  lemma {:induction false} SatisfiedNeedsSamples(link: LinkInfo, included: bv8, excluded: bv8, maxDistance: real, minCount: nat)
    requires Satisfied(link, included, excluded, maxDistance, minCount)
    ensures minCount <= |link.linkDatas|
  {
    var ds := link.linkDatas;
    var s := Satisfying(ds, |ds|, included, excluded, maxDistance);
    BoundedSetSize(s, |ds|);
  }

  /** A set of naturals below n has at most n elements. */
  lemma {:induction false} BoundedSetSize(s: set<nat>, n: nat)
    requires forall j :: j in s ==> j < n
    ensures |s| <= n
    decreases n
  {
    if n > 0 {
      BoundedSetSize(s - {n - 1}, n - 1);
    }
  }

  /** The two channels of an inter-satellite link: the network samples and the optical session. */
  datatype IslChannels = IslChannels(netSamples: seq<LinkData>, fso: FsoChannel.Stepped)

  /**
   * Creates the channels of an inter-satellite link (helper/adi-helper.cc:226-244):
   * the network channel gets every sample, the optical channel every sample
   * but the last five, attached to a new channel between the two devices.
   */
  function CreateISLChannel(link: LinkInfo, tx: FsoChannel.DeviceId, rx: FsoChannel.DeviceId, now: real,
                            angle: FsoChannel.IncludedAngle, txPointing: CoordTurntable, rxPointing: CoordTurntable): (r: IslChannels)
    requires |link.linkDatas| > ISL_TAIL
    requires FsoChannel.Ascending(link.linkDatas[..|link.linkDatas| - ISL_TAIL], now)
    ensures r.netSamples == link.linkDatas
    ensures |r.fso.channel.samples| + 1 + ISL_TAIL == |link.linkDatas|
    ensures forall k :: 0 <= k < |r.fso.channel.samples| ==> r.fso.channel.samples[k] == FsoChannel.Queued(link.linkDatas[k + 1])
    ensures r.fso.channel.link.tx == Some(tx) && r.fso.channel.link.rx == Some(rx)
  {
    var fsoSamples := link.linkDatas[..|link.linkDatas| - ISL_TAIL];
    IslChannels(link.linkDatas, FsoChannel.Attach(FsoChannel.NewChannel(), tx, rx, now, fsoSamples, angle, txPointing, rxPointing))
  }

  /**
   * DoUpdateISL (helper/adi-helper.cc:299-302) schedules CreateISLChannel at
   * the time of the link's first sample. At that moment the first sample is
   * not after now, so DoAppend's assertion that every queued sample lies in
   * the future does not hold, and CreateISLChannel's precondition is unmet.
   */
  lemma FirstSampleNotAhead(link: LinkInfo)
    requires |link.linkDatas| > ISL_TAIL
    ensures !FsoChannel.Ascending(link.linkDatas[..|link.linkDatas| - ISL_TAIL], link.linkDatas[0].time)
  {
    assert link.linkDatas[..|link.linkDatas| - ISL_TAIL][0] == link.linkDatas[0];
  }
}
