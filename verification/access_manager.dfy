/**
 * The greedy access scheduler (helper/access-manager.cc, SelectTasks,
 * CalcScheme and AssignTurntableTask): candidates are weighted by their
 * station's key gap, sorted by weighted value and reserved one after the
 * other on both turntables' timelines; the timelines then become
 * re-pointing commands.
 */
module AccessManager {
  import opened Turntables
  import opened Results
  import opened Adi
  import opened AccessTimeline
  import opened AccessCandidates

  /**
   * The weight of a candidate's destination (lines 170-185): every station
   * weighs 1 when no satellite lacks keys, and its fairness weight otherwise;
   * a destination that is not a station reads the map's default, 0.
   */
  function Weight(totalKeyGap: real, weights: map<TurntableId, real>, dst: TurntableId): real {
    if dst !in weights then 0.0
    else if totalKeyGap == 0.0 then 1.0
    else weights[dst]
  }

  /** Every candidate's weighted value is its value times its destination's weight (lines 186-190). */
  function Weigh(accesses: seq<AccessData>, totalKeyGap: real, weights: map<TurntableId, real>): (r: seq<AccessData>)
    ensures |r| == |accesses|
    ensures forall k :: 0 <= k < |r| ==> r[k] == accesses[k].(wValue := r[k].wValue)
    ensures forall k :: 0 <= k < |r| ==> r[k].wValue == accesses[k].value * Weight(totalKeyGap, weights, accesses[k].dst)
    ensures totalKeyGap == 0.0 ==>
      forall k :: 0 <= k < |r| && accesses[k].dst in weights ==> r[k].wValue == r[k].value
  {
    seq(|accesses|, k requires 0 <= k < |accesses| =>
      accesses[k].(wValue := accesses[k].value * Weight(totalKeyGap, weights, accesses[k].dst)))
  }

  /** No candidate precedes an earlier one: weighted values never increase. */
  predicate Descending(s: seq<AccessData>) {
    forall i, j :: 0 <= i < j < |s| ==> !Precedes(s[j], s[i])
  }

  /** Places a candidate into a descending sequence before the first one it does not follow. */
  function InsertByValue(a: AccessData, s: seq<AccessData>): (r: seq<AccessData>)
    requires Descending(s)
    ensures Descending(r)
    ensures multiset(r) == multiset(s) + multiset{a}
    ensures forall x :: x in r ==> x in s || x == a
  {
    if s == [] then [a]
    else if !Precedes(s[0], a) then [a] + s
    else
      var rest := InsertByValue(a, s[1..]);
      assert s == [s[0]] + s[1..];
      assert forall j :: 0 <= j < |s[1..]| ==> s[1..][j] == s[j + 1];
      ConsDescending(s[0], rest);
      [s[0]] + rest
  }

  /** A candidate that no member of a descending sequence precedes can go in front of it. */
  lemma ConsDescending(x: AccessData, s: seq<AccessData>)
    requires Descending(s) && forall y :: y in s ==> !Precedes(y, x)
    ensures Descending([x] + s)
  {
    var r := [x] + s;
    forall i, j | 0 <= i < j < |r| ensures !Precedes(r[j], r[i]) {
      assert r[j] == s[j - 1];
      if 0 < i {
        assert r[i] == s[i - 1];
      }
    }
  }

  /**
   * The sort of line 192 as an insertion sort: a permutation into
   * descending weighted value. The source's sort is unstable, so candidates
   * of equal weighted value may come in any order there; this is one of
   * those orders.
   */
  function SortByValue(s: seq<AccessData>): (r: seq<AccessData>)
    ensures Descending(r)
    ensures multiset(r) == multiset(s)
  {
    if s == [] then []
    else
      assert s == [s[0]] + s[1..];
      InsertByValue(s[0], SortByValue(s[1..]))
  }

  /** The fixed facts about the turntables: their limiters and current pointings. */
  datatype Fleet = Fleet(lims: map<TurntableId, Limits>, pointing: map<TurntableId, CoordTurntable>)

  /**
   * A candidate the greedy pass can handle: its samples exist, its two
   * turntables are distinct and known, and its window does not begin or end
   * before planning time.
   */
  predicate Schedulable(datas: seq<LinkInfo>, a: AccessData, fleet: Fleet, now: real) {
    && a.i < |datas|
    && a.fsoStart < |datas[a.i].linkDatas| && a.fsoStop < |datas[a.i].linkDatas|
    && a.src != a.dst
    && a.src in fleet.lims && a.dst in fleet.lims
    && a.src in fleet.pointing && a.dst in fleet.pointing
    && now <= datas[a.i].linkDatas[a.fsoStart].time
    && now <= datas[a.i].linkDatas[a.fsoStop].time
  }

  /** The checkpoints a candidate asks of its source and destination turntables (lines 214-219). */
  function SrcStart(datas: seq<LinkInfo>, a: AccessData): TurntableState
    requires a.i < |datas| && a.fsoStart < |datas[a.i].linkDatas|
  {
    TurntableState(datas[a.i].linkDatas[a.fsoStart].time, datas[a.i].linkDatas[a.fsoStart].fromSrc)
  }

  function SrcStop(datas: seq<LinkInfo>, a: AccessData): TurntableState
    requires a.i < |datas| && a.fsoStop < |datas[a.i].linkDatas|
  {
    TurntableState(datas[a.i].linkDatas[a.fsoStop].time, datas[a.i].linkDatas[a.fsoStop].fromSrc)
  }

  function DstStart(datas: seq<LinkInfo>, a: AccessData): TurntableState
    requires a.i < |datas| && a.fsoStart < |datas[a.i].linkDatas|
  {
    TurntableState(datas[a.i].linkDatas[a.fsoStart].time, datas[a.i].linkDatas[a.fsoStart].fromDst)
  }

  function DstStop(datas: seq<LinkInfo>, a: AccessData): TurntableState
    requires a.i < |datas| && a.fsoStop < |datas[a.i].linkDatas|
  {
    TurntableState(datas[a.i].linkDatas[a.fsoStop].time, datas[a.i].linkDatas[a.fsoStop].fromDst)
  }

  /** Every timeline starts with a checkpoint at planning time and holds whole windows. */
  predicate Planned(tls: map<TurntableId, Timeline>, now: real) {
    forall h :: h in tls ==> |tls[h]| % 2 == 1 && tls[h][0].time == now
  }

  /** A turntable first met gets a timeline holding its current pointing at planning time (lines 206-213). */
  function Seed(tls: map<TurntableId, Timeline>, h: TurntableId, now: real, fleet: Fleet): (r: map<TurntableId, Timeline>)
    requires h in fleet.pointing
    ensures r.Keys == tls.Keys + {h}
    ensures h in tls ==> r == tls
    ensures h !in tls ==> r[h] == [TurntableState(now, fleet.pointing[h])]
    ensures forall g :: g in tls ==> r[g] == tls[g]
  {
    if h in tls then tls else tls[h := [TurntableState(now, fleet.pointing[h])]]
  }

  /** The timelines after seeding both turntables of a candidate. */
  function Seeded(tls: map<TurntableId, Timeline>, a: AccessData, now: real, fleet: Fleet): map<TurntableId, Timeline>
    requires a.src in fleet.pointing && a.dst in fleet.pointing
  {
    Seed(Seed(tls, a.src, now, fleet), a.dst, now, fleet)
  }

  /** Seeding keeps the timelines planned. */
  lemma SeededPlanned(tls: map<TurntableId, Timeline>, a: AccessData, now: real, fleet: Fleet)
    requires Planned(tls, now) && a.src in fleet.pointing && a.dst in fleet.pointing
    ensures Planned(Seeded(tls, a, now, fleet), now)
    ensures Seeded(tls, a, now, fleet).Keys == tls.Keys + {a.src, a.dst}
  {
  }

  /** A reservation keeps the timelines planned: each window goes after the first checkpoint. */
  lemma ReservePlanned(swing: SwingFn, tls: map<TurntableId, Timeline>, lims: map<TurntableId, Limits>,
                       src: TurntableId, srcStart: TurntableState, srcStop: TurntableState,
                       dst: TurntableId, dstStart: TurntableState, dstStop: TurntableState, now: real)
    requires Planned(tls, now) && src != dst
    requires src in tls && dst in tls && src in lims && dst in lims
    requires Queryable(tls[src], srcStart, srcStop) && Queryable(tls[dst], dstStart, dstStop)
    ensures Planned(Reserve(swing, tls, lims, src, srcStart, srcStop, dst, dstStart, dstStop).timelines, now)
  {
    var res := Reserve(swing, tls, lims, src, srcStart, srcStop, dst, dstStart, dstStop);
    if res.ok {
      var ps := TryInsert(swing, tls[src], srcStart, srcStop, lims[src]);
      var pd := TryInsert(swing, tls[dst], dstStart, dstStop, lims[dst]);
      InsertAfterFirst(tls[src], ps, srcStart, srcStop);
      InsertAfterFirst(tls[dst], pd, dstStart, dstStop);
      forall h | h in res.timelines ensures |res.timelines[h]| % 2 == 1 && res.timelines[h][0].time == now {
        if h != src && h != dst {
          assert res.timelines[h] == tls[h];
        }
      }
    }
  }

  /** Placing a window after the first checkpoint keeps that checkpoint and the parity of the length. */
  lemma InsertAfterFirst(ts: Timeline, pos: nat, start: TurntableState, stop: TurntableState)
    requires 0 < pos <= |ts|
    ensures Insert(ts, pos, start, stop)[0] == ts[0]
    ensures |Insert(ts, pos, start, stop)| % 2 == |ts| % 2
  {
    assert Insert(ts, pos, start, stop)[..pos][0] == ts[..pos][0];
  }

  /** The outcome of the greedy pass over one candidate. */
  datatype Visited = Visited(access: AccessData, timelines: map<TurntableId, Timeline>)

  /**
   * One iteration of the greedy pass (lines 202-229): seed both turntables,
   * then try to reserve the window on both; the candidate is selected iff
   * the reservation succeeds.
   */
  function Visit(swing: SwingFn, datas: seq<LinkInfo>, fleet: Fleet, now: real,
                 tls: map<TurntableId, Timeline>, a: AccessData): (r: Visited)
    requires Planned(tls, now) && Schedulable(datas, a, fleet, now)
    ensures r.access == a.(selected := r.access.selected)
    ensures r.access.selected <==>
      Reserve(swing, Seeded(tls, a, now, fleet), fleet.lims,
              a.src, SrcStart(datas, a), SrcStop(datas, a),
              a.dst, DstStart(datas, a), DstStop(datas, a)).ok
    ensures r.timelines == Reserve(swing, Seeded(tls, a, now, fleet), fleet.lims,
                                   a.src, SrcStart(datas, a), SrcStop(datas, a),
                                   a.dst, DstStart(datas, a), DstStop(datas, a)).timelines
    ensures r.timelines.Keys == tls.Keys + {a.src, a.dst}
    ensures Planned(r.timelines, now)
  {
    var seeded := Seeded(tls, a, now, fleet);
    SeededPlanned(tls, a, now, fleet);
    var res := Reserve(swing, seeded, fleet.lims,
                       a.src, SrcStart(datas, a), SrcStop(datas, a),
                       a.dst, DstStart(datas, a), DstStop(datas, a));
    ReservePlanned(swing, seeded, fleet.lims,
                   a.src, SrcStart(datas, a), SrcStop(datas, a),
                   a.dst, DstStart(datas, a), DstStop(datas, a), now);
    Visited(a.(selected := res.ok), res.timelines)
  }

  /** The outcome of the greedy pass over a sequence of candidates. */
  datatype Scheme = Scheme(accesses: seq<AccessData>, timelines: map<TurntableId, Timeline>)

  /** The greedy pass over candidates in the given order, each visited once. */
  function Greedy(swing: SwingFn, datas: seq<LinkInfo>, fleet: Fleet, now: real,
                  tls: map<TurntableId, Timeline>, order: seq<AccessData>): (r: Scheme)
    requires Planned(tls, now)
    requires forall a :: a in order ==> Schedulable(datas, a, fleet, now)
    ensures |r.accesses| == |order|
    ensures forall k :: 0 <= k < |order| ==> r.accesses[k] == order[k].(selected := r.accesses[k].selected)
    ensures Planned(r.timelines, now)
    decreases |order|
  {
    if order == [] then Scheme([], tls)
    else
      var v := Visit(swing, datas, fleet, now, tls, order[0]);
      var rest := Greedy(swing, datas, fleet, now, v.timelines, order[1..]);
      Scheme([v.access] + rest.accesses, rest.timelines)
  }

  /** The greedy pass visits the first candidate, then the rest from the timelines it leaves. */
  lemma GreedyUnfold(swing: SwingFn, datas: seq<LinkInfo>, fleet: Fleet, now: real,
                     tls: map<TurntableId, Timeline>, order: seq<AccessData>)
    requires Planned(tls, now) && order != []
    requires forall a :: a in order ==> Schedulable(datas, a, fleet, now)
    ensures var v := Visit(swing, datas, fleet, now, tls, order[0]);
            var rest := Greedy(swing, datas, fleet, now, v.timelines, order[1..]);
            Greedy(swing, datas, fleet, now, tls, order) == Scheme([v.access] + rest.accesses, rest.timelines)
  {
  }

  /** One iteration of the greedy loop keeps its invariant. */
  lemma GreedyAdvance(swing: SwingFn, datas: seq<LinkInfo>, fleet: Fleet, now: real,
                      tls: map<TurntableId, Timeline>, order: seq<AccessData>, r: seq<AccessData>, whole: Scheme)
    requires Planned(tls, now) && order != []
    requires forall a :: a in order ==> Schedulable(datas, a, fleet, now)
    requires r + Greedy(swing, datas, fleet, now, tls, order).accesses == whole.accesses
    requires Greedy(swing, datas, fleet, now, tls, order).timelines == whole.timelines
    ensures var v := Visit(swing, datas, fleet, now, tls, order[0]);
            && (r + [v.access]) + Greedy(swing, datas, fleet, now, v.timelines, order[1..]).accesses == whole.accesses
            && Greedy(swing, datas, fleet, now, v.timelines, order[1..]).timelines == whole.timelines
  {
    var g := Greedy(swing, datas, fleet, now, tls, order);
    var v := Visit(swing, datas, fleet, now, tls, order[0]);
    var rest := Greedy(swing, datas, fleet, now, v.timelines, order[1..]);
    GreedyUnfold(swing, datas, fleet, now, tls, order);
    AppendAssoc(r, [v.access], rest.accesses);
  }

  /** Indexing a sequence with one element put in front. */
  lemma ConsIndex<T>(x: T, s: seq<T>, k: nat)
    requires k <= |s|
    ensures ([x] + s)[k] == if k == 0 then x else s[k - 1]
  {
  }

  /** Sequence concatenation is associative. */
  lemma AppendAssoc<T>(a: seq<T>, b: seq<T>, c: seq<T>)
    ensures a + (b + c) == (a + b) + c
  {
  }

  /** The turntables a sequence of candidates names. */
  function Ends(order: seq<AccessData>): set<TurntableId> {
    if order == [] then {} else {order[0].src, order[0].dst} + Ends(order[1..])
  }

  /** The greedy pass gives a timeline to exactly the turntables it met. */
  lemma {:induction false} GreedyKeys(swing: SwingFn, datas: seq<LinkInfo>, fleet: Fleet, now: real,
                                      tls: map<TurntableId, Timeline>, order: seq<AccessData>)
    requires Planned(tls, now)
    requires forall a :: a in order ==> Schedulable(datas, a, fleet, now)
    ensures Greedy(swing, datas, fleet, now, tls, order).timelines.Keys == tls.Keys + Ends(order)
    decreases |order|
  {
    if order != [] {
      var v := Visit(swing, datas, fleet, now, tls, order[0]);
      GreedyUnfold(swing, datas, fleet, now, tls, order);
      GreedyKeys(swing, datas, fleet, now, v.timelines, order[1..]);
    }
  }

  /** The number of selected candidates with h as one of their ends. */
  function Reserved(accesses: seq<AccessData>, h: TurntableId): nat {
    if accesses == [] then 0
    else (if accesses[0].selected && (accesses[0].src == h || accesses[0].dst == h) then 1 else 0) + Reserved(accesses[1..], h)
  }

  /** Counting over a sequence with one candidate put in front. */
  lemma ReservedCons(x: AccessData, s: seq<AccessData>, h: TurntableId)
    ensures Reserved([x] + s, h) == (if x.selected && (x.src == h || x.dst == h) then 1 else 0) + Reserved(s, h)
  {
    assert ([x] + s)[1..] == s;
  }

  /** One visit adds one window to each end of a selected candidate and changes nothing else. */
  lemma VisitCounts(swing: SwingFn, datas: seq<LinkInfo>, fleet: Fleet, now: real,
                    tls: map<TurntableId, Timeline>, a: AccessData)
    requires Planned(tls, now) && Schedulable(datas, a, fleet, now)
    ensures var v := Visit(swing, datas, fleet, now, tls, a);
      forall h :: h in v.timelines ==>
        |v.timelines[h]| == (if h in tls then |tls[h]| else 1) + (if v.access.selected && (a.src == h || a.dst == h) then 2 else 0)
  {
    var v := Visit(swing, datas, fleet, now, tls, a);
    var seeded := Seeded(tls, a, now, fleet);
    SeededPlanned(tls, a, now, fleet);
    forall h | h in v.timelines
      ensures |v.timelines[h]| == (if h in tls then |tls[h]| else 1) + (if v.access.selected && (a.src == h || a.dst == h) then 2 else 0)
    {
      assert |seeded[h]| == (if h in tls then |tls[h]| else 1);
    }
  }

  /**
   * Every timeline the greedy pass leaves holds its initial checkpoints plus
   * one window per selected candidate that names its turntable.
   */
  lemma {:induction false} GreedyCounts(swing: SwingFn, datas: seq<LinkInfo>, fleet: Fleet, now: real,
                                        tls: map<TurntableId, Timeline>, order: seq<AccessData>)
    requires Planned(tls, now)
    requires forall a :: a in order ==> Schedulable(datas, a, fleet, now)
    ensures var g := Greedy(swing, datas, fleet, now, tls, order);
      forall h :: h in g.timelines ==> |g.timelines[h]| == (if h in tls then |tls[h]| else 1) + 2 * Reserved(g.accesses, h)
    decreases |order|
  {
    var g := Greedy(swing, datas, fleet, now, tls, order);
    if order == [] {
      forall h | h in g.timelines ensures |g.timelines[h]| == (if h in tls then |tls[h]| else 1) + 2 * Reserved(g.accesses, h) {
        assert h in tls;
      }
    } else {
      var v := Visit(swing, datas, fleet, now, tls, order[0]);
      GreedyUnfold(swing, datas, fleet, now, tls, order);
      VisitCounts(swing, datas, fleet, now, tls, order[0]);
      GreedyCounts(swing, datas, fleet, now, v.timelines, order[1..]);
      GreedyKeys(swing, datas, fleet, now, v.timelines, order[1..]);
      var rest := Greedy(swing, datas, fleet, now, v.timelines, order[1..]);
      assert g.accesses == [v.access] + rest.accesses && g.timelines == rest.timelines;
      forall h | h in g.timelines ensures |g.timelines[h]| == (if h in tls then |tls[h]| else 1) + 2 * Reserved(g.accesses, h) {
        ReservedCons(v.access, rest.accesses, h);
        if h !in v.timelines {
          assert h !in tls && h != order[0].src && h != order[0].dst;
        }
      }
    }
  }

  /** A candidate's window does not end before it starts. */
  predicate Forward(datas: seq<LinkInfo>, a: AccessData)
    requires a.i < |datas| && a.fsoStart < |datas[a.i].linkDatas| && a.fsoStop < |datas[a.i].linkDatas|
  {
    datas[a.i].linkDatas[a.fsoStart].time <= datas[a.i].linkDatas[a.fsoStop].time
  }

  /** Every timeline is chronological. */
  predicate Ordered(tls: map<TurntableId, Timeline>) {
    forall h :: h in tls ==> Chronological(tls[h])
  }

  lemma VisitOrdered(swing: SwingFn, datas: seq<LinkInfo>, fleet: Fleet, now: real,
                     tls: map<TurntableId, Timeline>, a: AccessData)
    requires Planned(tls, now) && Ordered(tls) && Schedulable(datas, a, fleet, now) && Forward(datas, a)
    ensures Ordered(Visit(swing, datas, fleet, now, tls, a).timelines)
  {
    var v := Visit(swing, datas, fleet, now, tls, a);
    var seeded := Seeded(tls, a, now, fleet);
    SeededPlanned(tls, a, now, fleet);
    assert Ordered(seeded) by {
      forall h | h in seeded ensures Chronological(seeded[h]) {
        if h !in tls {
          assert |seeded[h]| == 1;
        }
      }
    }
    if v.access.selected {
      InsertKeepsWellFormed(swing, seeded[a.src], SrcStart(datas, a), SrcStop(datas, a), fleet.lims[a.src]);
      InsertKeepsWellFormed(swing, seeded[a.dst], DstStart(datas, a), DstStop(datas, a), fleet.lims[a.dst]);
    }
  }

  /**
   * When no candidate's window ends before it starts, the greedy pass keeps
   * every timeline chronological.
   */
  lemma {:induction false} GreedyOrdered(swing: SwingFn, datas: seq<LinkInfo>, fleet: Fleet, now: real,
                                         tls: map<TurntableId, Timeline>, order: seq<AccessData>)
    requires Planned(tls, now) && Ordered(tls)
    requires forall a :: a in order ==> Schedulable(datas, a, fleet, now) && Forward(datas, a)
    ensures Ordered(Greedy(swing, datas, fleet, now, tls, order).timelines)
    decreases |order|
  {
    if order != [] {
      var v := Visit(swing, datas, fleet, now, tls, order[0]);
      GreedyUnfold(swing, datas, fleet, now, tls, order);
      VisitOrdered(swing, datas, fleet, now, tls, order[0]);
      GreedyOrdered(swing, datas, fleet, now, v.timelines, order[1..]);
    }
  }

  /** Every timeline leaves its turntable time for each swing between reserved windows. */
  predicate Executable(swing: SwingFn, tls: map<TurntableId, Timeline>, lims: map<TurntableId, Limits>) {
    forall h :: h in tls ==> h in lims && AllGapsFit(swing, tls[h], lims[h])
  }

  lemma VisitExecutable(swing: SwingFn, datas: seq<LinkInfo>, fleet: Fleet, now: real,
                        tls: map<TurntableId, Timeline>, a: AccessData)
    requires Planned(tls, now) && Executable(swing, tls, fleet.lims) && Schedulable(datas, a, fleet, now)
    ensures Executable(swing, Visit(swing, datas, fleet, now, tls, a).timelines, fleet.lims)
  {
    var v := Visit(swing, datas, fleet, now, tls, a);
    var seeded := Seeded(tls, a, now, fleet);
    SeededPlanned(tls, a, now, fleet);
    assert Executable(swing, seeded, fleet.lims) by {
      forall h | h in seeded ensures h in fleet.lims && AllGapsFit(swing, seeded[h], fleet.lims[h]) {
        if h !in tls {
          assert |seeded[h]| == 1;
        }
      }
    }
    if v.access.selected {
      InsertKeepsGapsFit(swing, seeded[a.src], SrcStart(datas, a), SrcStop(datas, a), fleet.lims[a.src]);
      InsertKeepsGapsFit(swing, seeded[a.dst], DstStart(datas, a), DstStop(datas, a), fleet.lims[a.dst]);
    }
  }

  /**
   * The greedy pass only reserves windows the turntables can swing between:
   * on every timeline it leaves, each free gap is at least the swing time
   * from the pointing at its start to the pointing at its end.
   */
  lemma {:induction false} GreedyExecutable(swing: SwingFn, datas: seq<LinkInfo>, fleet: Fleet, now: real,
                                            tls: map<TurntableId, Timeline>, order: seq<AccessData>)
    requires Planned(tls, now) && Executable(swing, tls, fleet.lims)
    requires forall a :: a in order ==> Schedulable(datas, a, fleet, now)
    ensures Executable(swing, Greedy(swing, datas, fleet, now, tls, order).timelines, fleet.lims)
    decreases |order|
  {
    if order != [] {
      var v := Visit(swing, datas, fleet, now, tls, order[0]);
      GreedyUnfold(swing, datas, fleet, now, tls, order);
      VisitExecutable(swing, datas, fleet, now, tls, order[0]);
      GreedyExecutable(swing, datas, fleet, now, v.timelines, order[1..]);
    }
  }

  /** Every checkpoint of every timeline survives into the later timelines. */
  predicate Grows(tls: map<TurntableId, Timeline>, tls': map<TurntableId, Timeline>) {
    forall h :: h in tls ==> h in tls' && forall x :: x in tls[h] ==> x in tls'[h]
  }

  /** A placed window keeps every checkpoint. */
  lemma InsertKeeps(ts: Timeline, pos: nat, start: TurntableState, stop: TurntableState)
    requires pos <= |ts|
    ensures forall x :: x in ts ==> x in Insert(ts, pos, start, stop)
    ensures start in Insert(ts, pos, start, stop) && stop in Insert(ts, pos, start, stop)
  {
    var r := Insert(ts, pos, start, stop);
    forall x | x in ts ensures x in r {
      var k :| 0 <= k < |ts| && ts[k] == x;
      if k < pos {
        assert r[..pos][k] == ts[..pos][k];
      } else {
        assert r[pos + 2..][k - pos] == ts[pos..][k - pos];
      }
    }
  }

  /**
   * A visit keeps every checkpoint, and a selected candidate's four
   * checkpoints are in its turntables' timelines afterwards.
   */
  lemma VisitGrows(swing: SwingFn, datas: seq<LinkInfo>, fleet: Fleet, now: real,
                   tls: map<TurntableId, Timeline>, a: AccessData)
    requires Planned(tls, now) && Schedulable(datas, a, fleet, now)
    ensures Grows(tls, Visit(swing, datas, fleet, now, tls, a).timelines)
    ensures var v := Visit(swing, datas, fleet, now, tls, a);
      v.access.selected ==>
        && SrcStart(datas, a) in v.timelines[a.src] && SrcStop(datas, a) in v.timelines[a.src]
        && DstStart(datas, a) in v.timelines[a.dst] && DstStop(datas, a) in v.timelines[a.dst]
  {
    var v := Visit(swing, datas, fleet, now, tls, a);
    var seeded := Seeded(tls, a, now, fleet);
    SeededPlanned(tls, a, now, fleet);
    if v.access.selected {
      var ps := TryInsert(swing, seeded[a.src], SrcStart(datas, a), SrcStop(datas, a), fleet.lims[a.src]);
      var pd := TryInsert(swing, seeded[a.dst], DstStart(datas, a), DstStop(datas, a), fleet.lims[a.dst]);
      InsertKeeps(seeded[a.src], ps, SrcStart(datas, a), SrcStop(datas, a));
      InsertKeeps(seeded[a.dst], pd, DstStart(datas, a), DstStop(datas, a));
    }
  }

  lemma {:induction false} GreedyGrows(swing: SwingFn, datas: seq<LinkInfo>, fleet: Fleet, now: real,
                                       tls: map<TurntableId, Timeline>, order: seq<AccessData>)
    requires Planned(tls, now)
    requires forall a :: a in order ==> Schedulable(datas, a, fleet, now)
    ensures Grows(tls, Greedy(swing, datas, fleet, now, tls, order).timelines)
    decreases |order|
  {
    if order != [] {
      var v := Visit(swing, datas, fleet, now, tls, order[0]);
      GreedyUnfold(swing, datas, fleet, now, tls, order);
      VisitGrows(swing, datas, fleet, now, tls, order[0]);
      GreedyGrows(swing, datas, fleet, now, v.timelines, order[1..]);
    }
  }

  /** Both turntables of a candidate hold its window's checkpoints. */
  predicate HasWindow(datas: seq<LinkInfo>, a: AccessData, tls: map<TurntableId, Timeline>)
    requires a.i < |datas| && a.fsoStart < |datas[a.i].linkDatas| && a.fsoStop < |datas[a.i].linkDatas|
  {
    && a.src in tls && a.dst in tls
    && SrcStart(datas, a) in tls[a.src] && SrcStop(datas, a) in tls[a.src]
    && DstStart(datas, a) in tls[a.dst] && DstStop(datas, a) in tls[a.dst]
  }

  lemma GrowsKeepsWindow(datas: seq<LinkInfo>, a: AccessData, tls: map<TurntableId, Timeline>, tls': map<TurntableId, Timeline>)
    requires a.i < |datas| && a.fsoStart < |datas[a.i].linkDatas| && a.fsoStop < |datas[a.i].linkDatas|
    requires HasWindow(datas, a, tls) && Grows(tls, tls')
    ensures HasWindow(datas, a, tls')
  {
  }

  /**
   * Every selected candidate's window is on both its turntables' timelines
   * when the greedy pass ends: later reservations never displace it.
   */
  lemma {:induction false} GreedyKeepsReserved(swing: SwingFn, datas: seq<LinkInfo>, fleet: Fleet, now: real,
                                               tls: map<TurntableId, Timeline>, order: seq<AccessData>)
    requires Planned(tls, now)
    requires forall a :: a in order ==> Schedulable(datas, a, fleet, now)
    ensures var g := Greedy(swing, datas, fleet, now, tls, order);
      forall k :: 0 <= k < |order| && g.accesses[k].selected ==>
        Schedulable(datas, order[k], fleet, now) && HasWindow(datas, order[k], g.timelines)
    decreases |order|
  {
    if order != [] {
      var g := Greedy(swing, datas, fleet, now, tls, order);
      var v := Visit(swing, datas, fleet, now, tls, order[0]);
      GreedyUnfold(swing, datas, fleet, now, tls, order);
      var rest := Greedy(swing, datas, fleet, now, v.timelines, order[1..]);
      GreedyKeepsReserved(swing, datas, fleet, now, v.timelines, order[1..]);
      assert g.accesses == [v.access] + rest.accesses && g.timelines == rest.timelines;
      forall k | 0 <= k < |order| && g.accesses[k].selected
        ensures Schedulable(datas, order[k], fleet, now) && HasWindow(datas, order[k], g.timelines)
      {
        assert order[k] in order;
        ConsIndex(v.access, rest.accesses, k);
        if k == 0 {
          VisitGrows(swing, datas, fleet, now, tls, order[0]);
          GreedyGrows(swing, datas, fleet, now, v.timelines, order[1..]);
          GrowsKeepsWindow(datas, order[0], v.timelines, rest.timelines);
        } else {
          assert order[k] == order[1..][k - 1];
        }
      }
    }
  }

  /** The greedy pass from empty timelines, as a loop (lines 193-230). */
  method GreedyPass(swing: SwingFn, datas: seq<LinkInfo>, fleet: Fleet, now: real, sorted: seq<AccessData>)
    returns (r: seq<AccessData>, tls: map<TurntableId, Timeline>)
    requires forall a :: a in sorted ==> Schedulable(datas, a, fleet, now)
    ensures Scheme(r, tls) == Greedy(swing, datas, fleet, now, map[], sorted)
  {
    ghost var whole := Greedy(swing, datas, fleet, now, map[], sorted);
    r := [];
    tls := map[];
    var k := 0;
    while k < |sorted|
      invariant 0 <= k <= |sorted|
      invariant Planned(tls, now)
      invariant r + Greedy(swing, datas, fleet, now, tls, sorted[k..]).accesses == whole.accesses
      invariant Greedy(swing, datas, fleet, now, tls, sorted[k..]).timelines == whole.timelines
    {
      var v := Visit(swing, datas, fleet, now, tls, sorted[k]);
      GreedyAdvance(swing, datas, fleet, now, tls, sorted[k..], r, whole);
      assert sorted[k..][1..] == sorted[k + 1..];
      r := r + [v.access];
      tls := v.timelines;
      k := k + 1;
    }
    assert sorted[k..] == [];
  }

  /** Weighing and sorting keep every candidate schedulable. */
  lemma SortedSchedulable(datas: seq<LinkInfo>, accesses: seq<AccessData>, now: real,
                          totalKeyGap: real, weights: map<TurntableId, real>, fleet: Fleet)
    requires forall a :: a in accesses ==> Schedulable(datas, a, fleet, now)
    ensures forall a :: a in SortByValue(Weigh(accesses, totalKeyGap, weights)) ==> Schedulable(datas, a, fleet, now)
  {
    var weighed := Weigh(accesses, totalKeyGap, weights);
    forall a | a in weighed ensures Schedulable(datas, a, fleet, now) {
      var k :| 0 <= k < |weighed| && weighed[k] == a;
      assert accesses[k] in accesses;
    }
    var sorted := SortByValue(weighed);
    forall a | a in sorted ensures Schedulable(datas, a, fleet, now) {
      assert a in multiset(sorted);
      assert a in multiset(weighed);
    }
  }

  /**
   * The scheduling pass (lines 160-231): weigh, sort by weighted value, then
   * visit each candidate once, starting from empty timelines.
   */
  method CalcScheme(swing: SwingFn, datas: seq<LinkInfo>, accesses: seq<AccessData>, now: real,
                    totalKeyGap: real, weights: map<TurntableId, real>, fleet: Fleet)
    returns (r: seq<AccessData>, tls: map<TurntableId, Timeline>)
    requires totalKeyGap >= 0.0
    requires forall a :: a in accesses ==> Schedulable(datas, a, fleet, now)
    ensures |r| == |accesses|
    ensures Descending(r)
    ensures Planned(tls, now)
    ensures forall a :: a in SortByValue(Weigh(accesses, totalKeyGap, weights)) ==> Schedulable(datas, a, fleet, now)
    ensures Scheme(r, tls) == Greedy(swing, datas, fleet, now, map[], SortByValue(Weigh(accesses, totalKeyGap, weights)))
    ensures forall h :: h in tls ==> h in fleet.lims && AllGapsFit(swing, tls[h], fleet.lims[h])
  {
    var weighed := Weigh(accesses, totalKeyGap, weights);
    var sorted := SortByValue(weighed);
    SortedSchedulable(datas, accesses, now, totalKeyGap, weights, fleet);
    assert |sorted| == |weighed| by {
      assert |multiset(sorted)| == |multiset(weighed)|;
    }
    r, tls := GreedyPass(swing, datas, fleet, now, sorted);
    GreedyExecutable(swing, datas, fleet, now, map[], sorted);
    forall i, j | 0 <= i < j < |r| ensures !Precedes(r[j], r[i]) {
      assert r[i].wValue == sorted[i].wValue && r[j].wValue == sorted[j].wValue;
    }
  }

  /**
   * The commands for every turntable (lines 233-244), turntables taken in
   * the order given: the source visits its ordered map in key order.
   */
  function AssignTurntableTask(tls: map<TurntableId, Timeline>, keys: seq<TurntableId>, now: real): (cs: seq<Command>)
    requires forall h :: h in keys ==> h in tls
    ensures forall c :: c in cs ==> c.turntable in keys && c in Commands(c.turntable, tls[c.turntable], now)
    ensures forall h, c :: h in keys && c in Commands(h, tls[h], now) ==> c in cs
  {
    if keys == [] then []
    else
      var first := Commands(keys[0], tls[keys[0]], now);
      assert forall c :: c in first ==> c.turntable == keys[0];
      first + AssignTurntableTask(tls, keys[1..], now)
  }

  /** The commands addressed to turntable h, in the order they are scheduled. */
  function CommandsFor(cs: seq<Command>, h: TurntableId): (r: seq<Command>)
    ensures forall c :: c in r <==> c in cs && c.turntable == h
    ensures |r| <= |cs|
  {
    if cs == [] then []
    else (if cs[0].turntable == h then [cs[0]] else []) + CommandsFor(cs[1..], h)
  }

  lemma {:induction false} CommandsForAppend(a: seq<Command>, b: seq<Command>, h: TurntableId)
    ensures CommandsFor(a + b, h) == CommandsFor(a, h) + CommandsFor(b, h)
  {
    if a == [] {
      assert a + b == b;
    } else {
      assert (a + b)[0] == a[0] && (a + b)[1..] == a[1..] + b;
      CommandsForAppend(a[1..], b, h);
    }
  }

  /** Filtering commands that all address h keeps them all, in order. */
  lemma {:induction false} CommandsForAll(cs: seq<Command>, h: TurntableId)
    requires forall c :: c in cs ==> c.turntable == h
    ensures CommandsFor(cs, h) == cs
  {
    if cs != [] {
      assert forall c :: c in cs[1..] ==> c in cs;
      CommandsForAll(cs[1..], h);
    }
  }

  /** One turntable's commands, filtered for h: all of them if h is that turntable, else none. */
  lemma CommandsForOne(k: TurntableId, ts: Timeline, now: real, h: TurntableId)
    ensures CommandsFor(Commands(k, ts, now), h) == if h == k then Commands(k, ts, now) else []
  {
    if h == k {
      CommandsForAll(Commands(k, ts, now), h);
    }
  }

  /** A key listed once at the head of a list is absent from its tail. */
  lemma HeadNotInTail(keys: seq<TurntableId>)
    requires keys != []
    requires forall i, j :: 0 <= i < j < |keys| ==> keys[i] != keys[j]
    ensures keys[0] !in keys[1..]
    ensures forall i, j :: 0 <= i < j < |keys[1..]| ==> keys[1..][i] != keys[1..][j]
  {
  }

  /**
   * Every listed turntable, listed once, is sent exactly its own timeline's
   * commands, in their order, and an unlisted one is sent nothing: the
   * result is the per-turntable command lists concatenated in key order.
   */
  lemma {:induction false} AssignPerTurntable(tls: map<TurntableId, Timeline>, keys: seq<TurntableId>, now: real, h: TurntableId)
    requires forall k :: k in keys ==> k in tls
    requires forall i, j :: 0 <= i < j < |keys| ==> keys[i] != keys[j]
    ensures CommandsFor(AssignTurntableTask(tls, keys, now), h) == if h in keys then Commands(h, tls[h], now) else []
  {
    if keys != [] {
      var rest := keys[1..];
      HeadNotInTail(keys);
      assert h in keys <==> h == keys[0] || h in rest;
      CommandsForAppend(Commands(keys[0], tls[keys[0]], now), AssignTurntableTask(tls, rest, now), h);
      CommandsForOne(keys[0], tls[keys[0]], now, h);
      AssignPerTurntable(tls, rest, now, h);
    }
  }

  /** The least handle of a non-empty set. */
  ghost function LeastOf(s: set<TurntableId>): (m: TurntableId)
    requires s != {}
    ensures m in s && forall h :: h in s ==> m <= h
    decreases |s|
  {
    var x :| x in s;
    if s == {x} then x
    else
      var others := s - {x};
      assert |others| == |s| - 1;
      var m := LeastOf(others);
      assert forall h :: h in s ==> h == x || h in others;
      if x < m then x else m
  }

  /** The least handle of a non-empty set, computed. */
  method Least(s: set<TurntableId>) returns (m: TurntableId)
    requires s != {}
    ensures m in s && forall h :: h in s ==> m <= h
  {
    ghost var w := LeastOf(s);
    m :| m in s && forall h :: h in s ==> m <= h;
  }

  /** The keys of the timeline map in ascending order, as the ordered map iterates them. */
  method KeysAscending(s: set<TurntableId>) returns (ks: seq<TurntableId>)
    ensures forall i, j :: 0 <= i < j < |ks| ==> ks[i] < ks[j]
    ensures forall h :: h in ks <==> h in s
  {
    ks := [];
    var rest := s;
    while rest != {}
      invariant rest <= s
      invariant forall h :: h in ks <==> h in s && h !in rest
      invariant forall i, j :: 0 <= i < j < |ks| ==> ks[i] < ks[j]
      invariant forall i, h :: 0 <= i < |ks| && h in rest ==> ks[i] < h
      decreases |rest|
    {
      var m := Least(rest);
      ghost var ks0, rest0 := ks, rest;
      ks := ks + [m];
      rest := rest - {m};
      assert forall h :: h in ks <==> h in ks0 || h == m;
      assert forall h :: h in rest <==> h in rest0 && h != m;
    }
  }

  /**
   * The whole selection (lines 147-158): start from no candidates and no
   * timelines, gather the candidates of the satisfied links, schedule them
   * and command the turntables.
   */
  method SelectTasks(swing: SwingFn, datas: seq<LinkInfo>, satisfied: seq<bool>, now: real,
                     totalKeyGap: real, weights: map<TurntableId, real>, fleet: Fleet)
    returns (accesses: seq<AccessData>, tls: map<TurntableId, Timeline>, commands: seq<Command>)
    requires |datas| <= |satisfied| && totalKeyGap >= 0.0
    requires forall j :: 0 <= j < |datas| && satisfied[j] ==> Candidate(datas[j], fleet.lims)
    requires forall a :: a in AddAccessDatas(datas, satisfied, fleet.lims, swing) ==> Schedulable(datas, a, fleet, now)
    ensures var candidates := AddAccessDatas(datas, satisfied, fleet.lims, swing);
      && |accesses| == |candidates|
      && Descending(accesses)
      && (forall a :: a in SortByValue(Weigh(candidates, totalKeyGap, weights)) ==> Schedulable(datas, a, fleet, now))
      && tls.Keys == Ends(SortByValue(Weigh(candidates, totalKeyGap, weights)))
      && Scheme(accesses, tls) == Greedy(swing, datas, fleet, now, map[], SortByValue(Weigh(candidates, totalKeyGap, weights)))
    ensures Planned(tls, now)
    ensures forall h :: h in tls ==> |tls[h]| == 1 + 2 * Reserved(accesses, h)
    ensures forall c :: c in commands ==> c.turntable in tls && c in Commands(c.turntable, tls[c.turntable], now)
    ensures forall h, c :: h in tls && c in Commands(h, tls[h], now) ==> c in commands
    ensures forall h :: h in tls ==> CommandsFor(commands, h) == Commands(h, tls[h], now)
    ensures forall h :: h in tls ==> h in fleet.lims && AllGapsFit(swing, tls[h], fleet.lims[h])
  {
    var candidates := AddAccessDatas(datas, satisfied, fleet.lims, swing);
    accesses, tls := CalcScheme(swing, datas, candidates, now, totalKeyGap, weights, fleet);
    var sorted := SortByValue(Weigh(candidates, totalKeyGap, weights));
    GreedyKeys(swing, datas, fleet, now, map[], sorted);
    GreedyCounts(swing, datas, fleet, now, map[], sorted);
    var keys := KeysAscending(tls.Keys);
    commands := AssignTurntableTask(tls, keys, now);
    forall h | h in tls
      ensures CommandsFor(commands, h) == Commands(h, tls[h], now)
    {
      AssignPerTurntable(tls, keys, now, h);
    }
  }
}
