/** What both reconstructors share: the `(start, end, status)` slices they produce, the
    sums taken over them, the event-window query and the `_starting_status` lookup
    (defined identically in services/billing.py and services/status_stats.py). */
module History {
  import opened Optional
  import opened Enums
  import opened Models

  /** One reconstructed interval `[start, end)` spent in `status`. */
  datatype Slice = Slice(start: int, end: int, status: Status)

  function Seconds(s: Slice): int
  {
    s.end - s.start
  }

  /** `p` tiles `[a, b)`: it is non-empty, starts at `a`, every slice is non-empty,
      each slice ends where the next begins and the last one ends at `b`. */
  predicate Tiles(p: seq<Slice>, a: int, b: int)
    decreases |p|
  {
    && |p| > 0
    && p[0].start == a
    && p[0].start < p[0].end
    && (if |p| == 1 then p[0].end == b else Tiles(p[1..], p[0].end, b))
  }

  /** The same property, stated index by index. */
  lemma {:induction false} TilesAt(p: seq<Slice>, a: int, b: int)
    requires Tiles(p, a, b)
    ensures |p| > 0 && p[0].start == a && p[|p| - 1].end == b
    ensures forall k :: 0 <= k < |p| ==> p[k].start < p[k].end
    ensures forall k :: 0 <= k < |p| - 1 ==> p[k].end == p[k + 1].start
    decreases |p|
  {
    if |p| > 1 {
      TilesAt(p[1..], p[0].end, b);
      assert forall k :: 1 <= k < |p| ==> p[k] == p[1..][k - 1];
    }
  }

  /** Sum of the slices' lengths (accumulated front to back, as the source's loops do). */
  function TotalDuration(p: seq<Slice>): int
  {
    if p == [] then 0 else TotalDuration(p[..|p| - 1]) + Seconds(p[|p| - 1])
  }

  /** Seconds spent in a status whose value is in `billable`: the source's
      `billable_seconds` (billing) and `uptime_seconds` (statistics). */
  function BillableSeconds(p: seq<Slice>, billable: set<string>): int
  {
    if p == [] then 0
    else BillableSeconds(p[..|p| - 1], billable)
         + (if StatusValue(p[|p| - 1].status) in billable then Seconds(p[|p| - 1]) else 0)
  }

  lemma {:induction false} TotalDurationCons(x: Slice, p: seq<Slice>)
    ensures TotalDuration([x] + p) == Seconds(x) + TotalDuration(p)
    decreases |p|
  {
    if p != [] {
      var q := [x] + p;
      assert q[..|q| - 1] == [x] + p[..|p| - 1];
      TotalDurationCons(x, p[..|p| - 1]);
    }
  }

  /** Slices that tile `[a, b)` last `b - a` seconds in all. */
  lemma {:induction false} TilesTotal(p: seq<Slice>, a: int, b: int)
    requires Tiles(p, a, b)
    ensures TotalDuration(p) == b - a
    decreases |p|
  {
    assert p == [p[0]] + p[1..];
    TotalDurationCons(p[0], p[1..]);
    if |p| > 1 {
      TilesTotal(p[1..], p[0].end, b);
    }
  }

  /** The billable part of slices that run forwards is between zero and their total. */
  lemma {:induction false} BillableWithinTotal(p: seq<Slice>, billable: set<string>)
    requires forall k :: 0 <= k < |p| ==> p[k].start <= p[k].end
    ensures 0 <= BillableSeconds(p, billable) <= TotalDuration(p)
    decreases |p|
  {
    if p != [] {
      BillableWithinTotal(p[..|p| - 1], billable);
    }
  }

  /** `BILLABLE = set(settings.BILLABLE_STATUSES or ("active",))`: an empty
      configuration means "active" only. */
  function BillableSet(configured: seq<string>): (r: set<string>)
    ensures configured == [] ==> r == {"active"}
    ensures configured != [] ==> forall x :: x in r <==> x in configured
  {
    if configured == [] then {"active"} else set x | x in configured
  }

  /** The events come back from the database in `ORDER BY changed_at` order. */
  predicate Chronological(h: seq<StatusEvent>)
  {
    forall i, j :: 0 <= i < j < |h| && h[i].changedAt.Some? && h[j].changedAt.Some? ==>
      h[i].changedAt.value <= h[j].changedAt.value
  }

  predicate Within(e: StatusEvent, lo: int, hi: int)
  {
    e.changedAt.Some? && lo <= e.changedAt.value <= hi
  }

  /** `WHERE changed_at >= lo AND changed_at <= hi ORDER BY changed_at`: the events of the
      history in `[lo, hi]`, in history order (a NULL time compares false and is dropped). */
  function Fetch(h: seq<StatusEvent>, lo: int, hi: int): (r: seq<StatusEvent>)
    ensures forall e :: e in r <==> e in h && Within(e, lo, hi)
    ensures |r| <= |h|
  {
    if h == [] then []
    else
      assert forall e :: e in h ==> e == h[0] || e in h[1..];
      if Within(h[0], lo, hi) then [h[0]] + Fetch(h[1..], lo, hi) else Fetch(h[1..], lo, hi)
  }

  /** The query keeps the `ORDER BY changed_at` order. */
  lemma {:induction false} FetchChronological(h: seq<StatusEvent>, lo: int, hi: int)
    requires Chronological(h)
    ensures Chronological(Fetch(h, lo, hi))
    decreases |h|
  {
    if h != [] {
      var tail := h[1..];
      assert Chronological(tail) by {
        forall i, j | 0 <= i < j < |tail| && tail[i].changedAt.Some? && tail[j].changedAt.Some?
          ensures tail[i].changedAt.value <= tail[j].changedAt.value
        {
          assert tail[i] == h[i + 1] && tail[j] == h[j + 1];
        }
      }
      FetchChronological(tail, lo, hi);
      var rest := Fetch(tail, lo, hi);
      if Within(h[0], lo, hi) {
        var r := [h[0]] + rest;
        forall i, j | 0 <= i < j < |r| && r[i].changedAt.Some? && r[j].changedAt.Some?
          ensures r[i].changedAt.value <= r[j].changedAt.value
        {
          if i > 0 {
            assert r[i] == rest[i - 1] && r[j] == rest[j - 1];
          } else {
            assert r[j] in tail;
            var k :| 0 <= k < |tail| && tail[k] == r[j];
            assert h[k + 1] == r[j];
          }
        }
      }
    }
  }

  /** Every event is timed strictly inside `(lo, hi)`, at strictly increasing times. */
  predicate StrictlyInside(events: seq<StatusEvent>, lo: int, hi: int)
  {
    && (forall k :: 0 <= k < |events| ==> events[k].changedAt.Some? && lo < events[k].changedAt.value < hi)
    && (forall i, j :: 0 <= i < j < |events| ==> events[i].changedAt.value < events[j].changedAt.value)
  }

  lemma StrictlyInsideTail(events: seq<StatusEvent>, lo: int, hi: int)
    requires events != [] && StrictlyInside(events, lo, hi)
    ensures StrictlyInside(events[1..], events[0].changedAt.value, hi)
  {
    var tail := events[1..];
    forall k | 0 <= k < |tail|
      ensures tail[k].changedAt.Some? && events[0].changedAt.value < tail[k].changedAt.value < hi
    {
      assert tail[k] == events[k + 1];
    }
  }

  predicate AtOrBefore(e: StatusEvent, t: int)
  {
    e.changedAt.Some? && e.changedAt.value <= t
  }

  /** `WHERE changed_at <= t ORDER BY changed_at DESC LIMIT 1`. Ties are resolved by the
      database arbitrarily; the model takes the one stored last. */
  function LatestAtOrBefore(h: seq<StatusEvent>, t: int): (r: Option<StatusEvent>)
    ensures r.Some? ==> r.value in h && AtOrBefore(r.value, t)
    ensures r.None? <==> forall e :: e in h ==> !AtOrBefore(e, t)
  {
    if h == [] then None
    else if AtOrBefore(h[|h| - 1], t) then Some(h[|h| - 1])
    else
      assert forall e :: e in h ==> e in h[..|h| - 1] || e == h[|h| - 1];
      LatestAtOrBefore(h[..|h| - 1], t)
  }

  /** A prefix of a chronological history is chronological. */
  lemma ChronologicalPrefix(h: seq<StatusEvent>, n: nat)
    requires Chronological(h) && n <= |h|
    ensures Chronological(h[..n])
  {
    var init := h[..n];
    forall i, j | 0 <= i < j < |init| && init[i].changedAt.Some? && init[j].changedAt.Some?
      ensures init[i].changedAt.value <= init[j].changedAt.value
    {
      assert init[i] == h[i] && init[j] == h[j];
    }
  }

  /** On a chronological history, any event at or before `t` is no later than the one found. */
  lemma {:induction false} LatestIsLatestFor(h: seq<StatusEvent>, t: int, e: StatusEvent)
    requires Chronological(h)
    requires e in h && AtOrBefore(e, t)
    ensures LatestAtOrBefore(h, t).Some?
    ensures e.changedAt.value <= LatestAtOrBefore(h, t).value.changedAt.value
    decreases |h|
  {
    var last := h[|h| - 1];
    var i :| 0 <= i < |h| && h[i] == e;
    if AtOrBefore(last, t) {
      if i < |h| - 1 {
        assert h[i].changedAt.value <= h[|h| - 1].changedAt.value;
      }
    } else {
      var init := h[..|h| - 1];
      assert i < |h| - 1 && init[i] == e;
      ChronologicalPrefix(h, |h| - 1);
      LatestIsLatestFor(init, t, e);
    }
  }

  /** On a chronological history the event found is a latest one at or before `t`. */
  lemma LatestIsLatest(h: seq<StatusEvent>, t: int)
    requires Chronological(h)
    requires LatestAtOrBefore(h, t).Some?
    ensures forall e :: e in h && AtOrBefore(e, t) ==>
      e.changedAt.value <= LatestAtOrBefore(h, t).value.changedAt.value
  {
    forall e | e in h && AtOrBefore(e, t)
      ensures e.changedAt.value <= LatestAtOrBefore(h, t).value.changedAt.value
    {
      LatestIsLatestFor(h, t, e);
    }
  }

  /** `_starting_status`: the status at `t` is the `to_status` of the latest event at or
      before `t` (unrecognised values becoming `Unknown`), else the stored status. */
  function StartingStatus(h: seq<StatusEvent>, t: int, stored: Status): (s: Status)
    ensures (forall e :: e in h ==> !AtOrBefore(e, t)) ==> s == stored
    ensures LatestAtOrBefore(h, t).Some? ==> s == ParseStatus(LatestAtOrBefore(h, t).value.toStatus)
  {
    match LatestAtOrBefore(h, t)
    case Some(e) => ParseStatus(e.toStatus)
    case None => stored
  }

  /** On a time-ordered history with an event at or before `t`, the status at `t` is that
      of an event at or before `t` that no other such event follows in time. */
  lemma StartingStatusIsLatest(h: seq<StatusEvent>, t: int, stored: Status)
    requires Chronological(h)
    requires exists e :: e in h && AtOrBefore(e, t)
    ensures exists l :: && l in h && AtOrBefore(l, t) && StartingStatus(h, t, stored) == ParseStatus(l.toStatus)
                        && (forall e :: e in h && AtOrBefore(e, t) ==> e.changedAt.value <= l.changedAt.value)
  {
    var l := LatestAtOrBefore(h, t).value;
    LatestIsLatest(h, t);
    assert l in h && AtOrBefore(l, t);
  }
}
