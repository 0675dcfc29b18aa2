/**
 * Candidate link windows (helper/access-manager.cc, AddAccessData): from
 * the geometry samples of a link, the span where both turntables can point
 * at each other, and the value the link would deliver over it.
 */
module AccessCandidates {
  import opened Turntables
  import opened Results
  import opened Adi
  import opened AccessTimeline

  /**
   * A candidate window (helper/access-manager.h:40-52): the index of its
   * link, the two turntables, the sample indices where the optical and the
   * network link start and stop, its value, its weighted value and whether
   * the scheduler selected it.
   */
  datatype AccessData = AccessData(
    i: nat, src: TurntableId, dst: TurntableId,
    fsoStart: nat, fsoStop: nat, netStart: nat, netStop: nat,
    value: real, wValue: real, selected: bool)

  /** The ordering operator of candidates (lines 38-42): higher weighted value first. */
  predicate Precedes(a: AccessData, b: AccessData) { a.wValue > b.wValue }

  /** A rate within a limiter's velocity interval, written as the sign of a product. */
  predicate RateWithin(r: real, b: Box) {
    (r - b.yMax) * (r - b.yMin) <= 0.0
  }

  /** The sign of a product of two reals. */
  lemma ProductSign(p: real, q: real)
    ensures p > 0.0 && q > 0.0 ==> p * q > 0.0
    ensures p < 0.0 && q < 0.0 ==> p * q > 0.0
    ensures p <= 0.0 && q >= 0.0 ==> p * q <= 0.0
  {
    if p < 0.0 && q < 0.0 {
      assert p * q == (-p) * (-q);
    } else if p <= 0.0 && q >= 0.0 {
      assert p * q == -((-p) * q);
    }
  }

  /** The product test is the interval test whenever the interval is non-empty. */
  lemma RateWithinIff(r: real, b: Box)
    requires b.yMin <= b.yMax
    ensures RateWithin(r, b) <==> b.yMin <= r <= b.yMax
  {
    var p, q := r - b.yMax, r - b.yMin;
    ProductSign(p, q);
    assert RateWithin(r, b) <==> p * q <= 0.0;
    if r > b.yMax {
      assert p > 0.0 && q > 0.0;
    } else if r < b.yMin {
      assert p < 0.0 && q < 0.0;
    } else {
      assert p <= 0.0 && q >= 0.0;
    }
  }

  /** The source end can follow the sample: both its rates are within its limiters and it sees the destination. */
  predicate SrcInLimiter(d: LinkData, l: Limits) {
    && RateWithin(d.fromSrc.azimuthRate, l.azimuth)
    && RateWithin(d.fromSrc.pitchRate, l.pitch)
    && HasAny(d.state, SRC2DST)
  }

  /** The destination end can follow the sample. */
  predicate DstInLimiter(d: LinkData, l: Limits) {
    && RateWithin(d.fromDst.azimuthRate, l.azimuth)
    && RateWithin(d.fromDst.pitchRate, l.pitch)
    && HasAny(d.state, DST2SRC)
  }

  /** A sample where the link could carry light: both ends follow it and it is close enough. */
  predicate Usable(d: LinkData, srcL: Limits, dstL: Limits) {
    SrcInLimiter(d, srcL) && DstInLimiter(d, dstL) && d.distance <= K_MAX_DISTANCE
  }

  /** The forward scan (lines 283-301) from sample k on: the first usable sample. */
  function FirstUsable(ds: seq<LinkData>, srcL: Limits, dstL: Limits, k: nat): (r: Option<nat>)
    requires k <= |ds|
    ensures r.None? <==> forall j :: k <= j < |ds| ==> !Usable(ds[j], srcL, dstL)
    ensures r.Some? ==>
      && k <= r.value < |ds| && Usable(ds[r.value], srcL, dstL)
      && forall j :: k <= j < r.value ==> !Usable(ds[j], srcL, dstL)
    decreases |ds| - k
  {
    if k == |ds| then None
    else if Usable(ds[k], srcL, dstL) then Some(k)
    else FirstUsable(ds, srcL, dstL, k + 1)
  }

  /**
   * The backward scan (lines 302-322) over samples k-1 down to 0: the last
   * usable one. It starts one before the final sample, so that the sample
   * after the one it finds always exists.
   */
  function LastUsable(ds: seq<LinkData>, srcL: Limits, dstL: Limits, k: nat): (r: Option<nat>)
    requires k <= |ds|
    ensures r.None? <==> forall j :: 0 <= j < k ==> !Usable(ds[j], srcL, dstL)
    ensures r.Some? ==>
      && r.value < k && Usable(ds[r.value], srcL, dstL)
      && forall j :: r.value < j < k ==> !Usable(ds[j], srcL, dstL)
  {
    if k == 0 then None
    else if Usable(ds[k - 1], srcL, dstL) then Some(k - 1)
    else LastUsable(ds, srcL, dstL, k - 1)
  }

  /** The span the two scans give: found only if both scans found a sample. */
  datatype Span = Span(found: bool, start: nat, stop: nat)

  /**
   * The span runs from the sample before the first usable one to the sample
   * after the last usable one (the final sample excepted); without a usable
   * sample it defaults to the whole run.
   */
  function FindSpan(ds: seq<LinkData>, srcL: Limits, dstL: Limits): (s: Span)
    requires |ds| > 0
    ensures s.start < |ds| && s.stop < |ds|
    ensures s.found <==> exists j :: 0 <= j < |ds| - 1 && Usable(ds[j], srcL, dstL)
    ensures s.found ==>
      && (forall j :: 0 <= j < s.start ==> !Usable(ds[j], srcL, dstL))
      && s.start + 1 < |ds|
      && (Usable(ds[s.start], srcL, dstL) || Usable(ds[s.start + 1], srcL, dstL))
      && (0 < s.start ==> !Usable(ds[s.start], srcL, dstL))
      && 0 < s.stop && Usable(ds[s.stop - 1], srcL, dstL)
      && forall j :: s.stop <= j < |ds| - 1 ==> !Usable(ds[j], srcL, dstL)
  {
    var first := FirstUsable(ds, srcL, dstL, 0);
    var last := LastUsable(ds, srcL, dstL, |ds| - 1);
    var start := if first.Some? && first.value > 0 then first.value - 1 else 0;
    var stop := if last.Some? then last.value + 1 else |ds| - 1;
    Span(first.Some? && last.Some?, start, stop)
  }

  /**
   * Whether the candidate is kept (lines 323-330): both scans found a sample
   * and the span lasts at least a minute.
   */
  predicate Kept(ds: seq<LinkData>, s: Span)
    requires s.start < |ds| && s.stop < |ds|
  {
    && ds[s.start].time < ds[s.stop].time
    && ds[s.stop].time - ds[s.start].time >= MINUTE
    && s.found
  }

  /** The stop sample is pulled back to leave at least ten samples after it (lines 333-338). */
  function PulledStop(n: nat, stop: nat): (r: int)
    ensures r <= n - 10 || r == stop
    ensures r <= stop
    ensures n - stop >= 10 ==> r == stop
  {
    if n - stop < 10 then n - 10 else stop
  }

  /**
   * What the source needs of a sample run: it is not empty, and for a kept
   * candidate the pulled-back stop lies inside the run and not more than one
   * sample before the start (otherwise the accrual loop would run off the
   * end), and every sample the loop visits has a gain that is a real number.
   */
  predicate Replayable(ds: seq<LinkData>, srcL: Limits, dstL: Limits) {
    && |ds| > 0
    && var s := FindSpan(ds, srcL, dstL);
       Kept(ds, s) ==>
         && 0 <= PulledStop(|ds|, s.stop) && s.start <= PulledStop(|ds|, s.stop) + 1
         && forall k :: s.start <= k <= PulledStop(|ds|, s.stop) ==> GainDefined(ds[k], srcL, dstL)
  }

  /**
   * A sample whose gain may be added lies at a non-zero distance: the
   * inverse square of a zero distance is no real number.
   */
  predicate GainDefined(d: LinkData, srcL: Limits, dstL: Limits) {
    Counts(d, srcL, dstL) ==> d.distance != 0.0
  }

  /** Whether one end of the link currently tracks, or when it lost the target and where it last pointed. */
  datatype EndTrack = Tracking | Lost(lostTime: real, from: CoordTurntable)

  /** The state of the accrual loop: both ends and the value so far. */
  datatype Tracker = Tracker(src: EndTrack, dst: EndTrack, value: real)

  /**
   * A lost end resumes tracking at a sample once the time since it was lost
   * covers the swing from where it last pointed to the sample's pointing.
   */
  function Relink(e: EndTrack, now: real, to: CoordTurntable, l: Limits, swing: SwingFn): (r: EndTrack)
    ensures e.Tracking? ==> r == e
    ensures r.Tracking? <==> e.Tracking? || now - e.lostTime >= swing(e.from, to, l)
    ensures r.Lost? ==> r == e
  {
    if e.Lost? && now - e.lostTime >= swing(e.from, to, l) then Tracking else e
  }

  /** A tracking end that cannot follow the sample is lost at the sample's time, pointing as at the previous sample. */
  function Lose(e: EndTrack, inLimiter: bool, now: real, from: CoordTurntable): (r: EndTrack)
    ensures inLimiter || e.Lost? ==> r == e
    ensures !inLimiter && e.Tracking? ==> r == Lost(now, from)
  {
    if !inLimiter && e.Tracking? then Lost(now, from) else e
  }

  /** The contribution of one sample: the inverse square of its distance. */
  function Gain(d: LinkData): (g: real)
    requires d.distance != 0.0
    ensures g > 0.0
  {
    1.0 / (d.distance * d.distance)
  }

  /** A sample counts when both ends follow it and it is within range by its state bits. */
  predicate Counts(d: LinkData, srcL: Limits, dstL: Limits) {
    SrcInLimiter(d, srcL) && DstInLimiter(d, dstL) && !HasAny(d.state, BEYOND_DISTANCE)
  }

  /**
   * One iteration of the accrual loop (lines 352-436) at sample k: when both
   * ends follow the sample, lost ends try to relink and, if both then track
   * and the sample is within range, its gain is added; otherwise each end
   * that cannot follow it is lost.
   */
  function Step(ds: seq<LinkData>, k: nat, srcL: Limits, dstL: Limits, swing: SwingFn, tr: Tracker): (r: Tracker)
    requires k < |ds| && GainDefined(ds[k], srcL, dstL)
    ensures r.value == tr.value + (if Counts(ds[k], srcL, dstL) && r.src.Tracking? && r.dst.Tracking? then Gain(ds[k]) else 0.0)
    ensures tr.src.Lost? && r.src.Tracking? ==>
      SrcInLimiter(ds[k], srcL) && DstInLimiter(ds[k], dstL) && ds[k].time - tr.src.lostTime >= swing(tr.src.from, ds[k].fromSrc, srcL)
    ensures tr.dst.Lost? && r.dst.Tracking? ==>
      SrcInLimiter(ds[k], srcL) && DstInLimiter(ds[k], dstL) && ds[k].time - tr.dst.lostTime >= swing(tr.dst.from, ds[k].fromDst, dstL)
    ensures tr.src.Tracking? && r.src.Lost? ==> !SrcInLimiter(ds[k], srcL)
    ensures tr.dst.Tracking? && r.dst.Lost? ==> !DstInLimiter(ds[k], dstL)
  {
    var d := ds[k];
    var srcIn := SrcInLimiter(d, srcL);
    var dstIn := DstInLimiter(d, dstL);
    if srcIn && dstIn then
      var src := Relink(tr.src, d.time, d.fromSrc, srcL, swing);
      var dst := Relink(tr.dst, d.time, d.fromDst, dstL, swing);
      var gain := if src.Tracking? && dst.Tracking? && !HasAny(d.state, BEYOND_DISTANCE) then Gain(d) else 0.0;
      Tracker(src, dst, tr.value + gain)
    else
      var prev := ds[if k == 0 then 0 else k - 1];
      Tracker(Lose(tr.src, srcIn, d.time, prev.fromSrc), Lose(tr.dst, dstIn, d.time, prev.fromDst), tr.value)
  }

  /** The accrual loop over samples k up to and including stop. */
  function Accrue(ds: seq<LinkData>, k: nat, stop: int, srcL: Limits, dstL: Limits, swing: SwingFn, tr: Tracker): (r: Tracker)
    requires stop < |ds| && k <= stop + 1
    requires forall j :: k <= j <= stop ==> GainDefined(ds[j], srcL, dstL)
    decreases stop + 1 - k
  {
    if k == stop + 1 then tr
    else Accrue(ds, k + 1, stop, srcL, dstL, swing, Step(ds, k, srcL, dstL, swing, tr))
  }

  /** The gain of every counting sample in k..stop: what the link delivers if neither end is ever lost. */
  function Potential(ds: seq<LinkData>, k: nat, stop: int, srcL: Limits, dstL: Limits): real
    requires stop < |ds| && k <= stop + 1
    requires forall j :: k <= j <= stop ==> GainDefined(ds[j], srcL, dstL)
    decreases stop + 1 - k
  {
    if k == stop + 1 then 0.0
    else
      assert GainDefined(ds[k], srcL, dstL);
      (if Counts(ds[k], srcL, dstL) then Gain(ds[k]) else 0.0) + Potential(ds, k + 1, stop, srcL, dstL)
  }

  /** The value never decreases, and never exceeds what the link could deliver without losses. */
  lemma {:induction false} AccrueBounded(ds: seq<LinkData>, k: nat, stop: int, srcL: Limits, dstL: Limits, swing: SwingFn, tr: Tracker)
    requires stop < |ds| && k <= stop + 1
    requires forall j :: k <= j <= stop ==> GainDefined(ds[j], srcL, dstL)
    ensures tr.value <= Accrue(ds, k, stop, srcL, dstL, swing, tr).value
    ensures Accrue(ds, k, stop, srcL, dstL, swing, tr).value <= tr.value + Potential(ds, k, stop, srcL, dstL)
    decreases stop + 1 - k
  {
    if k <= stop {
      AccrueBounded(ds, k + 1, stop, srcL, dstL, swing, Step(ds, k, srcL, dstL, swing, tr));
    }
  }

  /**
   * When both ends track at the outset and follow every sample, neither is
   * ever lost and the value is exactly the potential.
   */
  lemma {:induction false} AccrueWithoutLoss(ds: seq<LinkData>, k: nat, stop: int, srcL: Limits, dstL: Limits, swing: SwingFn, tr: Tracker)
    requires stop < |ds| && k <= stop + 1
    requires forall j :: k <= j <= stop ==> GainDefined(ds[j], srcL, dstL)
    requires forall j :: k <= j <= stop ==> SrcInLimiter(ds[j], srcL) && DstInLimiter(ds[j], dstL)
    requires tr.src.Tracking? && tr.dst.Tracking?
    ensures Accrue(ds, k, stop, srcL, dstL, swing, tr).value == tr.value + Potential(ds, k, stop, srcL, dstL)
    decreases stop + 1 - k
  {
    if k <= stop {
      AccrueWithoutLoss(ds, k + 1, stop, srcL, dstL, swing, Step(ds, k, srcL, dstL, swing, tr));
    }
  }

  /**
   * A candidate window of link i (lines 257-439), or None when it is
   * dropped: no sample where both ends follow the link within range, or a
   * span shorter than a minute. The value is accrued from the span's start
   * to its pulled-back stop, with both ends tracking at the outset.
   */
  function AddAccessData(link: LinkInfo, i: nat, srcL: Limits, dstL: Limits, swing: SwingFn): (r: Option<AccessData>)
    requires Replayable(link.linkDatas, srcL, dstL)
    ensures r.Some? <==> Kept(link.linkDatas, FindSpan(link.linkDatas, srcL, dstL))
    ensures r.Some? ==>
      && r.value.i == i && r.value.src == link.src && r.value.dst == link.dst
      && r.value.fsoStart == r.value.netStart == FindSpan(link.linkDatas, srcL, dstL).start
      && r.value.fsoStop == r.value.netStop <= |link.linkDatas| - 10
      && r.value.fsoStop < |link.linkDatas|
      && r.value.fsoStart <= r.value.fsoStop + 1
      && 0.0 <= r.value.value == r.value.wValue
      && r.value.value <= Potential(link.linkDatas, r.value.fsoStart, r.value.fsoStop, srcL, dstL)
      && !r.value.selected
  {
    var ds := link.linkDatas;
    var s := FindSpan(ds, srcL, dstL);
    if !Kept(ds, s) then None
    else
      var stop := PulledStop(|ds|, s.stop);
      var tr := Accrue(ds, s.start, stop, srcL, dstL, swing, Tracker(Tracking, Tracking, 0.0));
      AccrueBounded(ds, s.start, stop, srcL, dstL, swing, Tracker(Tracking, Tracking, 0.0));
      Some(AccessData(i, link.src, link.dst, s.start, stop, s.start, stop, tr.value, tr.value, false))
  }

  /** The candidate of one link judged with its ends' limiters (lines 249-253). */
  function Gather(link: LinkInfo, i: nat, lims: map<TurntableId, Limits>, swing: SwingFn): (r: Option<AccessData>)
    requires Candidate(link, lims)
    ensures r.Some? ==> r.value.i == i
  {
    AddAccessData(link, i, lims[link.src], lims[link.dst], swing)
  }

  /** What the gathering loop makes of each link: its candidate if satisfied, nothing otherwise. */
  function Judged(datas: seq<LinkInfo>, satisfied: seq<bool>, lims: map<TurntableId, Limits>, swing: SwingFn): (os: seq<Option<AccessData>>)
    requires |datas| <= |satisfied|
    requires forall j :: 0 <= j < |datas| && satisfied[j] ==> Candidate(datas[j], lims)
    ensures |os| == |datas|
    ensures forall j :: 0 <= j < |os| && os[j].Some? ==> os[j].value.i == j && satisfied[j]
  {
    seq(|datas|, j requires 0 <= j < |datas| => if satisfied[j] then Gather(datas[j], j, lims, swing) else None)
  }

  /** The candidates of every satisfied link that are kept, in link order (lines 246-255). */
  function AddAccessDatas(datas: seq<LinkInfo>, satisfied: seq<bool>, lims: map<TurntableId, Limits>, swing: SwingFn): (r: seq<AccessData>)
    requires |datas| <= |satisfied|
    requires forall j :: 0 <= j < |datas| && satisfied[j] ==> Candidate(datas[j], lims)
    ensures forall a :: a in r ==> a.i < |datas| && satisfied[a.i]
    ensures forall p, q :: 0 <= p < q < |r| ==> r[p].i < r[q].i
  {
    var os := Judged(datas, satisfied, lims, swing);
    KeptIndexed(os, 0);
    KeptInOrder(os, 0);
    Somes(os)
  }

  /** Options whose present values carry their own position (offset by base): each kept value sits at that position. */
  lemma {:induction false} KeptIndexed(os: seq<Option<AccessData>>, base: nat)
    requires forall j :: 0 <= j < |os| && os[j].Some? ==> os[j].value.i == base + j
    ensures forall a :: a in Somes(os) ==> base <= a.i < base + |os| && os[a.i - base] == Some(a)
  {
    if os != [] {
      KeptIndexed(os[1..], base + 1);
      forall a | a in Somes(os)
        ensures base <= a.i < base + |os| && os[a.i - base] == Some(a)
      {
        if a !in Somes(os[1..]) {
          assert os[0] == Some(a);
        }
      }
    }
  }

  /** The same options keep their present values in increasing position order. */
  lemma {:induction false} KeptInOrder(os: seq<Option<AccessData>>, base: nat)
    requires forall j :: 0 <= j < |os| && os[j].Some? ==> os[j].value.i == base + j
    ensures forall p, q :: 0 <= p < q < |Somes(os)| ==> Somes(os)[p].i < Somes(os)[q].i
  {
    if os != [] {
      KeptInOrder(os[1..], base + 1);
      var rest := Somes(os[1..]);
      if os[0].Some? {
        KeptIndexed(os[1..], base + 1);
        var r := [os[0].value] + rest;
        assert Somes(os) == r;
        forall p, q | 0 <= p < q < |r|
          ensures r[p].i < r[q].i
        {
          ConsAt(os[0].value, rest, q);
          ConsAt(os[0].value, rest, p);
        }
      } else {
        assert Somes(os) == rest;
      }
    }
  }

  /** Indexing into a sequence with one element put in front. */
  lemma ConsAt<T>(x: T, s: seq<T>, k: nat)
    requires k <= |s|
    ensures ([x] + s)[k] == if k == 0 then x else s[k - 1]
    ensures 0 < k ==> ([x] + s)[k] in s
  {
  }

  /** Every candidate gathered is what AddAccessData makes of its own, satisfied link. */
  lemma AddAccessDatasSound(datas: seq<LinkInfo>, satisfied: seq<bool>, lims: map<TurntableId, Limits>, swing: SwingFn, a: AccessData)
    requires |datas| <= |satisfied|
    requires forall j :: 0 <= j < |datas| && satisfied[j] ==> Candidate(datas[j], lims)
    requires a in AddAccessDatas(datas, satisfied, lims, swing)
    ensures a.i < |datas| && satisfied[a.i] && Candidate(datas[a.i], lims)
    ensures AddAccessData(datas[a.i], a.i, lims[datas[a.i].src], lims[datas[a.i].dst], swing) == Some(a)
  {
    var os := Judged(datas, satisfied, lims, swing);
    KeptIndexed(os, 0);
  }

  /** Every satisfied link AddAccessData keeps contributes its candidate. */
  lemma AddAccessDatasComplete(datas: seq<LinkInfo>, satisfied: seq<bool>, lims: map<TurntableId, Limits>, swing: SwingFn, j: nat)
    requires |datas| <= |satisfied|
    requires forall i :: 0 <= i < |datas| && satisfied[i] ==> Candidate(datas[i], lims)
    requires j < |datas| && satisfied[j] && Candidate(datas[j], lims)
    requires AddAccessData(datas[j], j, lims[datas[j].src], lims[datas[j].dst], swing).Some?
    ensures AddAccessData(datas[j], j, lims[datas[j].src], lims[datas[j].dst], swing).value in AddAccessDatas(datas, satisfied, lims, swing)
  {
    var os := Judged(datas, satisfied, lims, swing);
    assert os[j] == Gather(datas[j], j, lims, swing);
    SomesIff(os, os[j].value);
  }

  /** A link the scheduler can judge: both ends have limiters and its samples are replayable. */
  predicate Candidate(link: LinkInfo, lims: map<TurntableId, Limits>) {
    && link.src in lims && link.dst in lims
    && Replayable(link.linkDatas, lims[link.src], lims[link.dst])
  }
}
