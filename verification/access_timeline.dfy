/**
 * The reservation timeline of one turntable (helper/access-manager.cc,
 * TryInsert and AssignTurntableTask). A timeline is a time-ordered list of
 * checkpoints: the pointing at planning time, then one (start, stop) pair
 * per reserved link window. Between a stop and the next start the
 * turntable is free and swings to the next pointing.
 */
module AccessTimeline {
  import opened Turntables
  import opened Adi
  import opened BangBangSolver

  /** A checkpoint: at time the turntable must point at pointing. */
  datatype TurntableState = TurntableState(time: real, pointing: CoordTurntable)

  /** The ordering operator of checkpoints compares times only (lines 44-48). */
  predicate Earlier(p: TurntableState, q: TurntableState) { p.time < q.time }

  type Timeline = seq<TurntableState>

  /**
   * The two-axis swing time between two pointings under a turntable's
   * limiters, taken as an oracle so that the scheduler's proofs need not
   * unfold the closed-form solver.
   */
  type SwingFn = (CoordTurntable, CoordTurntable, Limits) -> real

  /** The oracle is the minimum-time solver of the motion planner. */
  ghost predicate IsSwingTime(sqrt: Sqrt, swing: SwingFn) {
    && IsSqrt(sqrt)
    && forall p, q, l :: LimitsReady(l) ==> swing(p, q, l) == SwingTime(sqrt, p, q, l)
  }

  /** Checkpoint times never decrease; equal times are allowed. */
  predicate Chronological(ts: Timeline) {
    forall i, j :: 0 <= i < j < |ts| ==> !Earlier(ts[j], ts[i])
  }

  /** The shape every timeline keeps: the initial checkpoint, then whole windows. */
  predicate WellFormed(ts: Timeline) {
    |ts| % 2 == 1 && Chronological(ts)
  }

  function Last(ts: Timeline): TurntableState
    requires |ts| > 0
  {
    ts[|ts| - 1]
  }

  /** The number of free gaps between checkpoints that the scan visits. */
  function Gaps(ts: Timeline): nat
    requires |ts| > 0
  {
    (|ts| - 1) / 2
  }

  /** What the source asserts before scanning: both window ends are not before the first checkpoint, and a scan needs whole windows. */
  predicate Queryable(ts: Timeline, start: TurntableState, stop: TurntableState) {
    && |ts| > 0
    && ts[0].time <= start.time
    && ts[0].time <= stop.time
    && (start.time <= Last(ts).time ==> |ts| % 2 == 1)
  }

  /**
   * A window starting after the last checkpoint fits at the end iff the
   * turntable can swing from the last pointing to the start pointing in
   * time; the boundary is inclusive.
   */
  predicate AppendFits(swing: SwingFn, ts: Timeline, start: TurntableState, l: Limits)
    requires |ts| > 0
  {
    && Last(ts).time < start.time
    && Last(ts).time + swing(Last(ts).pointing, start.pointing, l) <= start.time
  }

  /**
   * A window fits the free gap i (between checkpoints 2i and 2i+1) iff both
   * its ends lie inside the gap and the turntable can swing in from the
   * gap's first pointing and out to the gap's last pointing.
   */
  predicate GapFits(swing: SwingFn, ts: Timeline, i: nat, start: TurntableState, stop: TurntableState, l: Limits)
    requires 2 * i + 1 < |ts|
  {
    var former := ts[2 * i];
    var latter := ts[2 * i + 1];
    && former.time <= start.time <= latter.time
    && former.time <= stop.time <= latter.time
    && former.time + swing(former.pointing, start.pointing, l) <= start.time
    && stop.time + swing(stop.pointing, latter.pointing, l) <= latter.time
  }

  /** The scan over gaps i, i+1, ...: the insertion position of the first gap that fits, or 0. */
  function FirstGap(swing: SwingFn, ts: Timeline, i: nat, start: TurntableState, stop: TurntableState, l: Limits): (r: nat)
    requires |ts| > 0 && i <= Gaps(ts)
    ensures r == 0 <==> forall j :: i <= j < Gaps(ts) ==> !GapFits(swing, ts, j, start, stop, l)
    ensures r != 0 ==>
      && r % 2 == 1 && i <= (r - 1) / 2 < Gaps(ts)
      && GapFits(swing, ts, (r - 1) / 2, start, stop, l)
      && forall j :: i <= j < (r - 1) / 2 ==> !GapFits(swing, ts, j, start, stop, l)
    decreases Gaps(ts) - i
  {
    if i == Gaps(ts) then 0
    else if GapFits(swing, ts, i, start, stop, l) then 2 * i + 1
    else FirstGap(swing, ts, i + 1, start, stop, l)
  }

  /**
   * Where a window may be reserved on a timeline (lines 50-119): |ts| to
   * append it, the odd position of the first fitting gap, or 0 when it fits
   * nowhere. A window starting after the last checkpoint is only tried at
   * the end; any other window only in the gaps.
   */
  function TryInsert(swing: SwingFn, ts: Timeline, start: TurntableState, stop: TurntableState, l: Limits): (r: nat)
    requires Queryable(ts, start, stop)
    ensures r <= |ts|
    ensures r == |ts| <==> AppendFits(swing, ts, start, l)
    ensures 0 < r < |ts| <==>
      start.time <= Last(ts).time && exists j :: 0 <= j < Gaps(ts) && GapFits(swing, ts, j, start, stop, l)
    ensures 0 < r < |ts| ==>
      && r % 2 == 1
      && GapFits(swing, ts, (r - 1) / 2, start, stop, l)
      && forall j :: 0 <= j < (r - 1) / 2 ==> !GapFits(swing, ts, j, start, stop, l)
  {
    if start.time > Last(ts).time then
      if Last(ts).time + swing(Last(ts).pointing, start.pointing, l) <= start.time then |ts| else 0
    else
      FirstGap(swing, ts, 0, start, stop, l)
  }

  /**
   * With the solver as the swing oracle, a window that starts after the last
   * checkpoint at the pointing the turntable already holds needs no swing,
   * so it is appended; a window at any other pointing is appended only if
   * it starts a positive swing time after the last checkpoint.
   */
  lemma AppendAtRest(sqrt: Sqrt, swing: SwingFn, ts: Timeline, start: TurntableState, stop: TurntableState, l: Limits)
    requires IsSwingTime(sqrt, swing) && LimitsReady(l)
    requires Queryable(ts, start, stop) && Last(ts).time < start.time
    ensures start.pointing == Last(ts).pointing ==> TryInsert(swing, ts, start, stop, l) == |ts|
    ensures start.pointing != Last(ts).pointing && TryInsert(swing, ts, start, stop, l) == |ts| ==>
      Last(ts).time < Last(ts).time + swing(Last(ts).pointing, start.pointing, l) <= start.time
  {
    var t := swing(Last(ts).pointing, start.pointing, l);
    assert t == SwingTime(sqrt, Last(ts).pointing, start.pointing, l);
  }

  /** The timeline with a window's two checkpoints placed at position pos. */
  function Insert(ts: Timeline, pos: nat, start: TurntableState, stop: TurntableState): (r: Timeline)
    requires pos <= |ts|
    ensures |r| == |ts| + 2
    ensures r[..pos] == ts[..pos] && r[pos] == start && r[pos + 1] == stop && r[pos + 2..] == ts[pos..]
  {
    ts[..pos] + [start, stop] + ts[pos..]
  }

  /**
   * Two checkpoints placed between neighbours that bracket them keep a
   * timeline chronological.
   */
  lemma InsertBetween(ts: Timeline, pos: nat, start: TurntableState, stop: TurntableState)
    requires Chronological(ts) && pos <= |ts| && start.time <= stop.time
    requires 0 < pos ==> ts[pos - 1].time <= start.time
    requires pos < |ts| ==> stop.time <= ts[pos].time
    ensures Chronological(Insert(ts, pos, start, stop))
  {
    var r := Insert(ts, pos, start, stop);
    forall i, j | 0 <= i < j < |r| ensures !Earlier(r[j], r[i]) {
      if i < pos && j >= pos + 2 {
        assert r[i] == ts[i] && r[j] == ts[j - 2];
        assert !Earlier(ts[j - 2], ts[i]);
      } else if j < pos {
        assert r[i] == ts[i] && r[j] == ts[j];
        assert !Earlier(ts[j], ts[i]);
      } else if i >= pos + 2 {
        assert r[i] == ts[i - 2] && r[j] == ts[j - 2];
        assert !Earlier(ts[j - 2], ts[i - 2]);
      } else if i < pos {
        assert r[i] == ts[i];
        assert !Earlier(ts[pos - 1], ts[i]);
      } else if j >= pos + 2 {
        assert r[j] == ts[j - 2];
        assert !Earlier(ts[j - 2], ts[pos]);
      }
    }
  }

  /** The neighbours of a reserved window's position bracket the window. */
  lemma TryInsertBrackets(swing: SwingFn, ts: Timeline, start: TurntableState, stop: TurntableState, l: Limits)
    requires Queryable(ts, start, stop)
    requires TryInsert(swing, ts, start, stop, l) != 0
    ensures ts[TryInsert(swing, ts, start, stop, l) - 1].time <= start.time
    ensures TryInsert(swing, ts, start, stop, l) < |ts| ==> stop.time <= ts[TryInsert(swing, ts, start, stop, l)].time
    ensures TryInsert(swing, ts, start, stop, l) % 2 == |ts| % 2
    ensures var pos := TryInsert(swing, ts, start, stop, l);
            && ts[pos - 1].time + swing(ts[pos - 1].pointing, start.pointing, l) <= start.time
            && (pos < |ts| ==> stop.time + swing(stop.pointing, ts[pos].pointing, l) <= ts[pos].time)
  {
    var pos := TryInsert(swing, ts, start, stop, l);
    if pos < |ts| {
      var g := (pos - 1) / 2;
      assert 2 * g == pos - 1;
      assert GapFits(swing, ts, g, start, stop, l);
    } else {
      assert AppendFits(swing, ts, start, l);
    }
  }

  /**
   * A reserved window keeps the timeline well formed when the window does
   * not end before it starts, and the first checkpoint stays in place.
   */
  lemma InsertKeepsWellFormed(swing: SwingFn, ts: Timeline, start: TurntableState, stop: TurntableState, l: Limits)
    requires Queryable(ts, start, stop) && WellFormed(ts)
    requires start.time <= stop.time
    requires TryInsert(swing, ts, start, stop, l) != 0
    ensures WellFormed(Insert(ts, TryInsert(swing, ts, start, stop, l), start, stop))
    ensures Insert(ts, TryInsert(swing, ts, start, stop, l), start, stop)[0] == ts[0]
  {
    TryInsertBrackets(swing, ts, start, stop, l);
    InsertBracketed(ts, TryInsert(swing, ts, start, stop, l), start, stop);
  }

  /** Two bracketed checkpoints placed after the first one keep a well-formed timeline well formed. */
  lemma InsertBracketed(ts: Timeline, pos: nat, start: TurntableState, stop: TurntableState)
    requires WellFormed(ts) && 0 < pos <= |ts| && start.time <= stop.time
    requires ts[pos - 1].time <= start.time
    requires pos < |ts| ==> stop.time <= ts[pos].time
    ensures WellFormed(Insert(ts, pos, start, stop)) && Insert(ts, pos, start, stop)[0] == ts[0]
  {
    InsertBetween(ts, pos, start, stop);
    var r := Insert(ts, pos, start, stop);
    assert r[0] == ts[0] by {
      assert r[..pos][0] == ts[..pos][0];
    }
  }

  /**
   * A reserved window leaves the turntable time to swing in from the
   * checkpoint before it and, unless it was appended, to swing out to the
   * checkpoint after it.
   */
  lemma InsertedWindowReachable(swing: SwingFn, ts: Timeline, start: TurntableState, stop: TurntableState, l: Limits)
    requires Queryable(ts, start, stop)
    requires TryInsert(swing, ts, start, stop, l) != 0
    ensures var pos := TryInsert(swing, ts, start, stop, l);
            var r := Insert(ts, pos, start, stop);
            && r[pos - 1].time + swing(r[pos - 1].pointing, start.pointing, l) <= start.time
            && (pos + 2 < |r| ==> stop.time + swing(stop.pointing, r[pos + 2].pointing, l) <= r[pos + 2].time)
  {
    TryInsertBrackets(swing, ts, start, stop, l);
    InsertNeighbours(ts, TryInsert(swing, ts, start, stop, l), start, stop);
  }

  /** The checkpoints around an inserted window are the ones that were at its position. */
  lemma InsertNeighbours(ts: Timeline, pos: nat, start: TurntableState, stop: TurntableState)
    requires 0 < pos <= |ts|
    ensures Insert(ts, pos, start, stop)[pos - 1] == ts[pos - 1]
    ensures pos < |ts| ==> Insert(ts, pos, start, stop)[pos + 2] == ts[pos]
  {
    var r := Insert(ts, pos, start, stop);
    assert r[..pos][pos - 1] == ts[..pos][pos - 1];
    if pos < |ts| {
      assert r[pos + 2..][0] == ts[pos..][0];
    }
  }

  /**
   * Free gap j of a timeline leaves the turntable time to swing from the
   * pointing it holds at checkpoint 2j to the one it must reach at 2j+1.
   */
  predicate SwingFits(swing: SwingFn, ts: Timeline, j: nat, l: Limits)
    requires 2 * j + 1 < |ts|
  {
    ts[2 * j].time + swing(ts[2 * j].pointing, ts[2 * j + 1].pointing, l) <= ts[2 * j + 1].time
  }

  /** Every free gap of a timeline is long enough for the swing across it. */
  predicate AllGapsFit(swing: SwingFn, ts: Timeline, l: Limits) {
    forall j :: 0 <= j < |ts| && 2 * j + 1 < |ts| ==> SwingFits(swing, ts, j, l)
  }

  /**
   * Two checkpoints placed at an odd position, with time to swing in from
   * the checkpoint before and out to the one after, keep every free gap
   * long enough for its swing: the gap they split becomes two such gaps.
   */
  lemma InsertedGapsFit(swing: SwingFn, ts: Timeline, pos: nat, start: TurntableState, stop: TurntableState, l: Limits)
    requires AllGapsFit(swing, ts, l) && 0 < pos <= |ts| && pos % 2 == 1
    requires ts[pos - 1].time + swing(ts[pos - 1].pointing, start.pointing, l) <= start.time
    requires pos < |ts| ==> stop.time + swing(stop.pointing, ts[pos].pointing, l) <= ts[pos].time
    ensures AllGapsFit(swing, Insert(ts, pos, start, stop), l)
  {
    var r := Insert(ts, pos, start, stop);
    var p := (pos - 1) / 2;
    assert 2 * p + 1 == pos;
    forall j | 0 <= j < |r| && 2 * j + 1 < |r| ensures SwingFits(swing, r, j, l) {
      if j < p {
        assert r[2 * j] == ts[2 * j] && r[2 * j + 1] == ts[2 * j + 1];
        assert SwingFits(swing, ts, j, l);
      } else if j == p {
        assert r[2 * j] == ts[pos - 1] && r[2 * j + 1] == start;
      } else if j == p + 1 {
        assert r[2 * j] == stop && r[2 * j + 1] == ts[pos];
      } else {
        var k: nat := j - 1;
        assert r[2 * j] == ts[2 * k] && r[2 * j + 1] == ts[2 * k + 1];
        assert SwingFits(swing, ts, k, l);
      }
    }
  }

  /** A reserved window keeps every free gap of a whole-window timeline long enough for its swing. */
  lemma InsertKeepsGapsFit(swing: SwingFn, ts: Timeline, start: TurntableState, stop: TurntableState, l: Limits)
    requires Queryable(ts, start, stop) && |ts| % 2 == 1 && AllGapsFit(swing, ts, l)
    requires TryInsert(swing, ts, start, stop, l) != 0
    ensures AllGapsFit(swing, Insert(ts, TryInsert(swing, ts, start, stop, l), start, stop), l)
  {
    TryInsertBrackets(swing, ts, start, stop, l);
    InsertedGapsFit(swing, ts, TryInsert(swing, ts, start, stop, l), start, stop, l);
  }

  /** The outcome of reserving a window on two turntables at once. */
  datatype Reservation = Reservation(ok: bool, timelines: map<TurntableId, Timeline>)

  /**
   * Reserving a link window on both its turntables (lines 121-145): both
   * timelines get the window only if it fits on each; otherwise neither
   * changes. The two turntables are distinct, as the iterator into the
   * second timeline would not survive an insertion into the first.
   */
  function Reserve(swing: SwingFn, tls: map<TurntableId, Timeline>, lims: map<TurntableId, Limits>,
                   src: TurntableId, srcStart: TurntableState, srcStop: TurntableState,
                   dst: TurntableId, dstStart: TurntableState, dstStop: TurntableState): (r: Reservation)
    requires src != dst
    requires src in tls && dst in tls && src in lims && dst in lims
    requires Queryable(tls[src], srcStart, srcStop) && Queryable(tls[dst], dstStart, dstStop)
    ensures r.ok <==> (TryInsert(swing, tls[src], srcStart, srcStop, lims[src]) != 0
                    && TryInsert(swing, tls[dst], dstStart, dstStop, lims[dst]) != 0)
    ensures !r.ok ==> r.timelines == tls
    ensures r.timelines.Keys == tls.Keys
    ensures forall h :: h in tls && h != src && h != dst ==> r.timelines[h] == tls[h]
    ensures r.ok ==>
      && r.timelines[src] == Insert(tls[src], TryInsert(swing, tls[src], srcStart, srcStop, lims[src]), srcStart, srcStop)
      && r.timelines[dst] == Insert(tls[dst], TryInsert(swing, tls[dst], dstStart, dstStop, lims[dst]), dstStart, dstStop)
  {
    var srcPos := TryInsert(swing, tls[src], srcStart, srcStop, lims[src]);
    var dstPos := TryInsert(swing, tls[dst], dstStart, dstStop, lims[dst]);
    if srcPos != 0 && dstPos != 0 then
      Reservation(true, tls[src := Insert(tls[src], srcPos, srcStart, srcStop)][dst := Insert(tls[dst], dstPos, dstStart, dstStop)])
    else
      Reservation(false, tls)
  }

  /** A re-pointing command: after delay, turntable must reach pointing by time. */
  datatype Command = Command(delay: real, turntable: TurntableId, time: real, pointing: CoordTurntable)

  /**
   * The commands for one turntable (lines 233-244): at the time of each
   * checkpoint 2j, relative to now, it is told to reach checkpoint 2j+1.
   */
  function Commands(h: TurntableId, ts: Timeline, now: real): (cs: seq<Command>)
    ensures |cs| == |ts| / 2
    ensures forall j :: 0 <= j < |cs| ==>
      cs[j] == Command(ts[2 * j].time - now, h, ts[2 * j + 1].time, ts[2 * j + 1].pointing)
    decreases |ts|
  {
    if |ts| < 2 then []
    else [Command(ts[0].time - now, h, ts[1].time, ts[1].pointing)] + Commands(h, ts[2..], now)
  }

  /**
   * On a well-formed timeline planned at its first checkpoint's time, there
   * is one command per reserved window, each issued no earlier than now and
   * no later than the time it must be reached, in non-decreasing order.
   */
  lemma CommandsOnePerWindow(h: TurntableId, ts: Timeline, now: real)
    requires WellFormed(ts) && ts[0].time == now
    ensures |Commands(h, ts, now)| == Gaps(ts)
    ensures forall j :: 0 <= j < Gaps(ts) ==>
      0.0 <= Commands(h, ts, now)[j].delay && now + Commands(h, ts, now)[j].delay <= Commands(h, ts, now)[j].time
    ensures forall j, k :: 0 <= j < k < Gaps(ts) ==> Commands(h, ts, now)[j].delay <= Commands(h, ts, now)[k].delay
  {
    var cs := Commands(h, ts, now);
    forall j | 0 <= j < Gaps(ts)
      ensures 0.0 <= cs[j].delay && now + cs[j].delay <= cs[j].time
    {
      assert !Earlier(ts[2 * j], ts[0]) || j == 0;
      assert !Earlier(ts[2 * j + 1], ts[2 * j]);
    }
    forall j, k | 0 <= j < k < Gaps(ts) ensures cs[j].delay <= cs[k].delay {
      assert !Earlier(ts[2 * k], ts[2 * j]);
    }
  }

  /** Once a window is reserved, the turntable is commanded to reach its start. */
  lemma ReservedWindowCommanded(swing: SwingFn, h: TurntableId, ts: Timeline, start: TurntableState, stop: TurntableState, l: Limits, now: real)
    requires Queryable(ts, start, stop) && |ts| % 2 == 1
    requires TryInsert(swing, ts, start, stop, l) != 0
    ensures var pos := TryInsert(swing, ts, start, stop, l);
            var r := Insert(ts, pos, start, stop);
            Command(r[pos - 1].time - now, h, start.time, start.pointing) in Commands(h, r, now)
  {
    TryInsertBrackets(swing, ts, start, stop, l);
    InsertedCommanded(h, ts, TryInsert(swing, ts, start, stop, l), start, stop, now);
  }

  /** A window inserted at an odd position is the target of the command issued at the checkpoint before it. */
  lemma InsertedCommanded(h: TurntableId, ts: Timeline, pos: nat, start: TurntableState, stop: TurntableState, now: real)
    requires 0 < pos <= |ts| && pos % 2 == 1
    ensures Command(Insert(ts, pos, start, stop)[pos - 1].time - now, h, start.time, start.pointing)
            in Commands(h, Insert(ts, pos, start, stop), now)
  {
    var r := Insert(ts, pos, start, stop);
    var cs := Commands(h, r, now);
    assert 2 * ((pos - 1) / 2) == pos - 1;
    assert cs[(pos - 1) / 2] == Command(r[pos - 1].time - now, h, start.time, start.pointing);
  }
}
