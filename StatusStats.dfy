/** services/status_stats.py: per-status time statistics of one instance over a window.
    Its reconstructor differs from the billing one: events at or before the cursor are
    skipped without touching the status, and the first event at or after the window end
    stops the scan. */
module StatusStats {
  import opened Optional
  import opened Enums
  import opened Models
  import opened History
  import Billing

  // ---------------------------------------------------------------- the window

  /** `_clip_window_to_lifespan`: the start moves forward to the creation time when one
      is known; the end is never changed. */
  function ClipWindow(createdAt: Option<int>, ws: int, we: int): (r: (int, int))
    ensures r.1 == we
    ensures createdAt.None? ==> r.0 == ws
    ensures createdAt.Some? ==> r.0 >= ws && r.0 >= createdAt.value
                                && (r.0 == ws || r.0 == createdAt.value)
  {
    if createdAt.Some? && createdAt.value > ws then (createdAt.value, we) else (ws, we)
  }

  // ---------------------------------------------------------------- periods

  /** The slice from the cursor to the window end, if the cursor is before it. */
  function Closing(cur: int, we: int, s: Status): seq<Slice>
  {
    if cur < we then [Slice(cur, we, s)] else []
  }

  /** `_build_periods` from the cursor `cur` with running status `s`. */
  function StatsSlices(events: seq<StatusEvent>, we: int, cur: int, s: Status): seq<Slice>
    decreases |events|
  {
    if events == [] then Closing(cur, we, s)
    else
      var e := events[0];
      if e.changedAt.None? || e.changedAt.value <= cur then StatsSlices(events[1..], we, cur, s)
      else if e.changedAt.value >= we then Closing(cur, we, s)
      else [Slice(cur, e.changedAt.value, s)] + StatsSlices(events[1..], we, e.changedAt.value, ParseStatus(e.toStatus))
  }

  /** From a cursor before the window end the slices tile the rest of the window; from
      one at or after it there are none. */
  lemma {:induction false} StatsSlicesTile(events: seq<StatusEvent>, we: int, cur: int, s: Status)
    ensures cur < we ==> Tiles(StatsSlices(events, we, cur, s), cur, we)
    ensures cur >= we ==> StatsSlices(events, we, cur, s) == []
    decreases |events|
  {
    if events != [] {
      var e := events[0];
      if e.changedAt.None? || e.changedAt.value <= cur {
        StatsSlicesTile(events[1..], we, cur, s);
      } else if e.changedAt.value < we {
        var t := e.changedAt.value;
        var rest := StatsSlices(events[1..], we, t, ParseStatus(e.toStatus));
        StatsSlicesTile(events[1..], we, t, ParseStatus(e.toStatus));
        assert ([Slice(cur, t, s)] + rest)[1..] == rest;
      }
    }
  }

  /** Events at or before the cursor add no slice and leave the running status as it is. */
  lemma {:induction false} StaleEventsSkipped(stale: seq<StatusEvent>, rest: seq<StatusEvent>,
                                              we: int, cur: int, s: Status)
    requires forall e :: e in stale ==> e.changedAt.None? || e.changedAt.value <= cur
    ensures StatsSlices(stale + rest, we, cur, s) == StatsSlices(rest, we, cur, s)
    decreases |stale|
  {
    if stale == [] {
      assert stale + rest == rest;
    } else {
      assert (stale + rest)[0] == stale[0] && (stale + rest)[1..] == stale[1..] + rest;
      assert stale[0] in stale;
      assert forall e :: e in stale[1..] ==> e in stale;
      StaleEventsSkipped(stale[1..], rest, we, cur, s);
    }
  }

  /** The scan stops at the first event at or after the window end: whatever follows it
      is never looked at. */
  lemma {:induction false} NothingAfterBreak(pre: seq<StatusEvent>, e: StatusEvent, rest: seq<StatusEvent>,
                                             we: int, cur: int, s: Status)
    requires cur < we && e.changedAt.Some? && e.changedAt.value >= we
    ensures StatsSlices(pre + [e] + rest, we, cur, s) == StatsSlices(pre + [e], we, cur, s)
    decreases |pre|
  {
    if pre == [] {
      assert pre + [e] + rest == [e] + rest && pre + [e] == [e];
      assert ([e] + rest)[0] == e;
    } else {
      var x := pre[0];
      assert (pre + [e] + rest)[0] == x && (pre + [e] + rest)[1..] == pre[1..] + [e] + rest;
      assert (pre + [e])[0] == x && (pre + [e])[1..] == pre[1..] + [e];
      if x.changedAt.None? || x.changedAt.value <= cur {
        NothingAfterBreak(pre[1..], e, rest, we, cur, s);
      } else if x.changedAt.value < we {
        NothingAfterBreak(pre[1..], e, rest, we, x.changedAt.value, ParseStatus(x.toStatus));
      }
    }
  }

  /** On a chronological history whose events all fall after the window start, the two
      reconstructors agree: skipping the late events, as billing does, or stopping at the
      first of them, as the statistics do, gives the same slices. */
  lemma {:induction false} AgreesWithBilling(events: seq<StatusEvent>, ws: int, we: int, cur: int, s: Status)
    requires Chronological(events) && ws <= cur
    requires forall k :: 0 <= k < |events| ==> events[k].changedAt.Some? && events[k].changedAt.value > ws
    ensures StatsSlices(events, we, cur, s) == Billing.BillingSlices(events, ws, we, cur, s)
    decreases |events|
  {
    if events != [] {
      var e := events[0];
      var t := e.changedAt.value;
      var tail := events[1..];
      assert Chronological(tail) by {
        forall i, j | 0 <= i < j < |tail| && tail[i].changedAt.Some? && tail[j].changedAt.Some?
          ensures tail[i].changedAt.value <= tail[j].changedAt.value
        {
          assert tail[i] == events[i + 1] && tail[j] == events[j + 1];
        }
      }
      assert forall k :: 0 <= k < |tail| ==> tail[k] == events[k + 1];
      if t <= cur {
        AgreesWithBilling(tail, ws, we, cur, s);
      } else if t >= we {
        if cur < we {
          forall x | x in events
            ensures x.changedAt.None? || x.changedAt.value >= we
          {
            var k :| 0 <= k < |events| && events[k] == x;
            if k > 0 {
              assert events[0].changedAt.value <= events[k].changedAt.value;
            }
          }
          Billing.LateEventsIgnored(events, ws, we, cur, s);
        } else {
          Billing.BillingSlicesTile(events, ws, we, cur, s);
        }
      } else {
        AgreesWithBilling(tail, ws, we, t, ParseStatus(e.toStatus));
      }
    }
  }

  /** `_build_periods`. */
  method BuildPeriods(events: seq<StatusEvent>, ws: int, we: int, start: Status) returns (periods: seq<Slice>)
    ensures periods == StatsSlices(events, we, ws, start)
    ensures ws < we ==> Tiles(periods, ws, we) && TotalDuration(periods) == we - ws
    ensures ws >= we ==> periods == []
  {
    periods := [];
    var curT, curS := ws, start;
    for i := 0 to |events|
      invariant periods + StatsSlices(events[i..], we, curT, curS) == StatsSlices(events, we, ws, start)
    {
      var ev := events[i];
      assert events[i..][0] == ev && events[i..][1..] == events[i + 1..];
      if ev.changedAt.None? || ev.changedAt.value <= curT {
        continue;
      }
      var t := ev.changedAt.value;
      if t >= we {
        assert periods + Closing(curT, we, curS) == StatsSlices(events, we, ws, start);
        break;
      }
      ghost var rest := StatsSlices(events[i + 1..], we, t, ParseStatus(ev.toStatus));
      assert periods + ([Slice(curT, t, curS)] + rest) == (periods + [Slice(curT, t, curS)]) + rest;
      periods := periods + [Slice(curT, t, curS)];
      curS := ParseStatus(ev.toStatus);
      curT := t;
    }
    assert events[|events|..] == [];
    if curT < we {
      periods := periods + [Slice(curT, we, curS)];
    } else {
      assert periods + [] == periods;
    }
    StatsSlicesTile(events, we, ws, start);
    if ws < we {
      TilesTotal(periods, ws, we);
    }
  }

  // ---------------------------------------------------------------- aggregation

  /** `d.get(k, 0)`. */
  function Get(m: map<string, int>, k: string): int
  {
    if k in m then m[k] else 0
  }

  /** `d[k] = d.get(k, 0) + v`. */
  function AddTo(m: map<string, int>, k: string, v: int): (r: map<string, int>)
    ensures r.Keys == m.Keys + {k}
    ensures r[k] == Get(m, k) + v
    ensures forall j :: j != k ==> Get(r, j) == Get(m, j)
  {
    m[k := Get(m, k) + v]
  }

  /** `seconds_by_status` after the loop over `p`: each slice adds its length under its
      status value. */
  function SecondsByStatus(p: seq<Slice>): map<string, int>
  {
    if p == [] then map[]
    else AddTo(SecondsByStatus(p[..|p| - 1]), StatusValue(p[|p| - 1].status), Seconds(p[|p| - 1]))
  }

  /** Seconds the slices spend in one status: the reference the map is checked against. */
  function StatusSeconds(p: seq<Slice>, st: Status): int
  {
    if p == [] then 0
    else StatusSeconds(p[..|p| - 1], st) + (if p[|p| - 1].status == st then Seconds(p[|p| - 1]) else 0)
  }

  /** Every key of the map is one of the four status values. */
  lemma {:induction false} SecondsByStatusKeys(p: seq<Slice>)
    ensures SecondsByStatus(p).Keys <= StatusValues
  {
    if p != [] {
      SecondsByStatusKeys(p[..|p| - 1]);
      StatusValueRoundTrip(p[|p| - 1].status);
    }
  }

  /** The map holds, under a status's value, exactly the seconds spent in that status. */
  lemma {:induction false} SecondsByStatusValues(p: seq<Slice>, st: Status)
    ensures Get(SecondsByStatus(p), StatusValue(st)) == StatusSeconds(p, st)
  {
    if p != [] {
      SecondsByStatusValues(p[..|p| - 1], st);
      var last := p[|p| - 1].status;
      assert StatusValue(last) == StatusValue(st) <==> last == st by {
        StatusValueRoundTrip(last);
        StatusValueRoundTrip(st);
      }
    }
  }

  /** A status's value is a key exactly when some slice has that status. */
  lemma {:induction false} SecondsByStatusPresence(p: seq<Slice>, st: Status)
    ensures StatusValue(st) in SecondsByStatus(p) <==> exists k :: 0 <= k < |p| && p[k].status == st
  {
    if p != [] {
      var init := p[..|p| - 1];
      var last := p[|p| - 1].status;
      SecondsByStatusPresence(init, st);
      assert StatusValue(last) == StatusValue(st) <==> last == st by {
        StatusValueRoundTrip(last);
        StatusValueRoundTrip(st);
      }
      if exists k :: 0 <= k < |init| && init[k].status == st {
        var k :| 0 <= k < |init| && init[k].status == st;
        assert p[k] == init[k];
      }
      if exists k :: 0 <= k < |p| && p[k].status == st {
        var k :| 0 <= k < |p| && p[k].status == st;
        if k < |init| {
          assert init[k] == p[k];
        }
      }
    }
  }

  /** The sum of the map's values: every key is a status value, so the four of them
      cover it. */
  function MapTotal(m: map<string, int>): int
  {
    Get(m, "active") + Get(m, "paused") + Get(m, "not_enough_balance") + Get(m, "unknown")
  }

  /** The values of `seconds_by_status` sum to the total length of the slices. */
  lemma {:induction false} SecondsByStatusPartition(p: seq<Slice>)
    ensures MapTotal(SecondsByStatus(p)) == TotalDuration(p)
  {
    if p != [] {
      SecondsByStatusPartition(p[..|p| - 1]);
    }
  }

  /** The uptime read off the map: the entries of the billable status values. */
  function BillableTotal(m: map<string, int>, billable: set<string>): int
  {
    (if "active" in billable then Get(m, "active") else 0)
    + (if "paused" in billable then Get(m, "paused") else 0)
    + (if "not_enough_balance" in billable then Get(m, "not_enough_balance") else 0)
    + (if "unknown" in billable then Get(m, "unknown") else 0)
  }

  /** `uptime_seconds` agrees with the billable entries of `seconds_by_status`. */
  lemma {:induction false} UptimeIsBillablePart(p: seq<Slice>, billable: set<string>)
    ensures BillableSeconds(p, billable) == BillableTotal(SecondsByStatus(p), billable)
  {
    if p != [] {
      UptimeIsBillablePart(p[..|p| - 1], billable);
    }
  }

  // ---------------------------------------------------------------- the result

  /** One entry of `segments`. */
  datatype Segment = Segment(start: int, end: int, status: Status, seconds: int)

  /** The dictionary `compute_status_stats` returns, without the floating-point
      `uptime_percent`. */
  datatype Stats = Stats(windowStart: int, windowEnd: int, totalSeconds: int,
                         secondsByStatus: map<string, int>, uptimeSeconds: int,
                         segments: Option<seq<Segment>>)

  /** The slices of a non-empty clipped window: the events fetched inside it, from the
      status at its start. */
  function WindowPeriods(createdAt: Option<int>, stored: Status, history: seq<StatusEvent>, ws: int, we: int): seq<Slice>
  {
    var (cs, ce) := ClipWindow(createdAt, ws, we);
    StatsSlices(Fetch(history, cs, ce), ce, cs, StartingStatus(history, cs, stored))
  }

  /** The accumulation loop of `compute_status_stats`: seconds per status value, and the
      seconds in a billable status. */
  method Accumulate(periods: seq<Slice>, billable: set<string>)
    returns (secondsByStatus: map<string, int>, uptime: int)
    ensures secondsByStatus == SecondsByStatus(periods)
    ensures uptime == BillableSeconds(periods, billable)
  {
    secondsByStatus := map[];
    uptime := 0;
    for i := 0 to |periods|
      invariant secondsByStatus == SecondsByStatus(periods[..i])
      invariant uptime == BillableSeconds(periods[..i], billable)
    {
      var a := periods[i];
      assert periods[..i + 1][..i] == periods[..i];
      var secs := a.end - a.start;
      secondsByStatus := secondsByStatus[StatusValue(a.status) := Get(secondsByStatus, StatusValue(a.status)) + secs];
      if StatusValue(a.status) in billable {
        uptime := uptime + secs;
      }
    }
    assert periods[..|periods|] == periods;
  }

  /** The totals of `compute_status_stats`: the per-status seconds add up to the covered
      time, and the uptime is the billable part of them. */
  method Aggregate(periods: seq<Slice>, billable: set<string>)
    returns (secondsByStatus: map<string, int>, uptime: int)
    ensures secondsByStatus == SecondsByStatus(periods)
    ensures uptime == BillableSeconds(periods, billable)
    ensures MapTotal(secondsByStatus) == TotalDuration(periods)
    ensures uptime == BillableTotal(secondsByStatus, billable)
  {
    secondsByStatus, uptime := Accumulate(periods, billable);
    SecondsByStatusPartition(periods);
    UptimeIsBillablePart(periods, billable);
  }

  /** `segments`: one entry per slice, with its length. */
  function SegmentsOf(p: seq<Slice>): (r: seq<Segment>)
    ensures |r| == |p|
    ensures forall k :: 0 <= k < |p| ==>
              r[k].start == p[k].start && r[k].end == p[k].end && r[k].status == p[k].status
              && r[k].seconds == r[k].end - r[k].start
  {
    seq(|p|, k requires 0 <= k < |p| => Segment(p[k].start, p[k].end, p[k].status, p[k].end - p[k].start))
  }

  /** `compute_status_stats`. */
  method ComputeStats(createdAt: Option<int>, stored: Status, history: seq<StatusEvent>, ws: int, we: int,
                      includeSegments: bool, configured: seq<string>)
    returns (r: Stats)
    ensures (r.windowStart, r.windowEnd) == ClipWindow(createdAt, ws, we)
    // the instance did not exist during the window
    ensures r.windowStart >= r.windowEnd ==>
              && r.totalSeconds == 0 && r.secondsByStatus == map[] && r.uptimeSeconds == 0
              && r.segments == (if includeSegments then Some([]) else None)
    ensures r.windowStart < r.windowEnd ==>
              var p := WindowPeriods(createdAt, stored, history, ws, we);
              && Tiles(p, r.windowStart, r.windowEnd)
              && r.totalSeconds == r.windowEnd - r.windowStart
              && r.secondsByStatus == SecondsByStatus(p)
              && r.secondsByStatus.Keys <= StatusValues
              && MapTotal(r.secondsByStatus) == r.totalSeconds
              && r.uptimeSeconds == BillableSeconds(p, BillableSet(configured))
              && r.uptimeSeconds == BillableTotal(r.secondsByStatus, BillableSet(configured))
              && 0 <= r.uptimeSeconds <= r.totalSeconds
              && r.segments == (if includeSegments then Some(SegmentsOf(p)) else None)
  {
    var billable := BillableSet(configured);
    var window := ClipWindow(createdAt, ws, we);
    var cs, ce := window.0, window.1;
    if cs >= ce {
      return Stats(cs, ce, 0, map[], 0, if includeSegments then Some([]) else None);
    }
    var events := Fetch(history, cs, ce);
    var startStatus := StartingStatus(history, cs, stored);
    var periods := BuildPeriods(events, cs, ce, startStatus);
    var secondsByStatus, uptime := Aggregate(periods, billable);
    var total := ce - cs;
    var segments := None;
    if includeSegments {
      segments := Some(SegmentsOf(periods));
    }
    r := Stats(cs, ce, total, secondsByStatus, uptime, segments);

    SecondsByStatusKeys(periods);
    TilesAt(periods, cs, ce);
    BillableWithinTotal(periods, billable);
  }
}
