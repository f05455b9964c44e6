/** services/billing.py: reconstruction of status periods, the prorated daily charge,
    catching one instance up with its schedule, and the locked sweep over all instances. */
module Billing {
  import opened Optional
  import opened Enums
  import opened Models
  import opened History
  import opened Locks

  const Day: int := 86400
  /** The charge divisor: a month is taken to be 30 days. */
  const MonthSeconds: int := 30 * Day
  /** How far before the period the event query reaches. */
  const CushionSeconds: int := 30 * Day
  const BillingLockKey: string := "billing:lock"

  // ---------------------------------------------------------------- arithmetic

  /** Python's `n // d`: rounds toward minus infinity (Dafny's `/` is Euclidean). */
  function FloorDiv(n: int, d: int): (q: int)
    requires d != 0
    ensures d > 0 ==> q * d <= n < q * d + d
    ensures d < 0 ==> q * d + d < n <= q * d
  {
    if d > 0 then n / d else (-n) / (-d)
  }

  /** `_ceil_div(n, d) = (n + d - 1) // d`: for a positive divisor, the least `q`
      with `q * d >= n`. */
  function CeilDiv(n: int, d: int): (q: int)
    requires d != 0
    ensures d > 0 ==> q * d >= n && (q - 1) * d < n
  {
    FloorDiv(n + d - 1, d)
  }

  /** The prorated charge of one period: `ceil(rate * seconds / (30 * 86400))`,
      and zero when that numerator is not positive. */
  function Charge(rate: int, seconds: int): (c: int)
    ensures c >= 0
    ensures rate * seconds <= 0 ==> c == 0
    ensures rate * seconds > 0 ==>
              c > 0 && c * MonthSeconds >= rate * seconds && (c - 1) * MonthSeconds < rate * seconds
  {
    var numerator := rate * seconds;
    if numerator > 0 then CeilDiv(numerator, MonthSeconds) else 0
  }

  /** Twelve hours at a monthly rate of 300 cost 5. */
  lemma ChargeExample()
    ensures Charge(300, 43200) == 5
  {
  }

  /** One period of at most a day never costs more than a thirtieth of the monthly
      rate, rounded up. */
  lemma ChargeAtMostDailyShare(rate: int, seconds: int)
    requires rate >= 0 && 0 <= seconds <= Day
    ensures Charge(rate, seconds) <= CeilDiv(rate, 30)
  {
    var n := rate * seconds;
    var c := Charge(rate, seconds);
    var q := CeilDiv(rate, 30);
    if n > 0 {
      assert n <= rate * Day by {
        NonNegativeProduct(rate, Day - seconds);
        assert rate * (Day - seconds) == rate * Day - n;
      }
      assert (c - 1) * MonthSeconds < n;
      assert (c - 1) * 30 < rate;
      assert rate <= q * 30;
    }
  }

  lemma NonNegativeProduct(a: int, b: int)
    requires a >= 0 && b >= 0
    ensures a * b >= 0
  {
  }

  // ---------------------------------------------------------------- periods

  /** How an event that opens no slice treats the running status: one at or before the
      window start (with a non-empty `to_status`) overwrites it, any other leaves it. */
  function PreWindowStatus(e: StatusEvent, ws: int, s: Status): Status
  {
    if e.changedAt.Some? && e.changedAt.value <= ws && e.toStatus != "" then ParseStatus(e.toStatus)
    else s
  }

  /** `_periods_from_events` from the cursor `cur` with running status `s`: an event
      strictly after the cursor and before the window end closes a slice and starts a new
      one; every other event only may overwrite the status (see PreWindowStatus). */
  function BillingSlices(events: seq<StatusEvent>, ws: int, we: int, cur: int, s: Status): seq<Slice>
    decreases |events|
  {
    if events == [] then
      if cur < we then [Slice(cur, we, s)] else []
    else
      var e := events[0];
      if e.changedAt.None? || e.changedAt.value <= cur || e.changedAt.value >= we then
        BillingSlices(events[1..], ws, we, cur, PreWindowStatus(e, ws, s))
      else
        [Slice(cur, e.changedAt.value, s)]
        + BillingSlices(events[1..], ws, we, e.changedAt.value, ParseStatus(e.toStatus))
  }

  /** From a cursor before the window end the slices tile the rest of the window;
      from one at or after it there are none. */
  lemma {:induction false} BillingSlicesTile(events: seq<StatusEvent>, ws: int, we: int, cur: int, s: Status)
    ensures cur < we ==> Tiles(BillingSlices(events, ws, we, cur, s), cur, we)
    ensures cur >= we ==> BillingSlices(events, ws, we, cur, s) == []
    decreases |events|
  {
    if events != [] {
      var e := events[0];
      if e.changedAt.None? || e.changedAt.value <= cur || e.changedAt.value >= we {
        BillingSlicesTile(events[1..], ws, we, cur, PreWindowStatus(e, ws, s));
      } else {
        var t := e.changedAt.value;
        var rest := BillingSlices(events[1..], ws, we, t, ParseStatus(e.toStatus));
        BillingSlicesTile(events[1..], ws, we, t, ParseStatus(e.toStatus));
        assert ([Slice(cur, t, s)] + rest)[1..] == rest;
      }
    }
  }

  /** `_periods_from_events`. */
  method PeriodsFromEvents(events: seq<StatusEvent>, ws: int, we: int, start: Status)
    returns (periods: seq<Slice>)
    ensures periods == BillingSlices(events, ws, we, ws, start)
    ensures ws < we ==> Tiles(periods, ws, we) && TotalDuration(periods) == we - ws
    ensures ws >= we ==> periods == []
  {
    periods := [];
    var curStart, curStatus := ws, start;
    for i := 0 to |events|
      invariant periods + BillingSlices(events[i..], ws, we, curStart, curStatus)
                == BillingSlices(events, ws, we, ws, start)
    {
      var ev := events[i];
      assert events[i..][0] == ev && events[i..][1..] == events[i + 1..];
      if ev.changedAt.None? || ev.changedAt.value <= curStart || ev.changedAt.value >= we {
        if ev.changedAt.Some? && ev.changedAt.value <= ws && ev.toStatus != "" {
          curStatus := ParseStatus(ev.toStatus);
        }
        continue;
      }
      var t := ev.changedAt.value;
      ghost var rest := BillingSlices(events[i + 1..], ws, we, t, ParseStatus(ev.toStatus));
      assert periods + ([Slice(curStart, t, curStatus)] + rest)
             == (periods + [Slice(curStart, t, curStatus)]) + rest;
      periods := periods + [Slice(curStart, t, curStatus)];
      curStatus := ParseStatus(ev.toStatus);
      curStart := t;
    }
    assert events[|events|..] == [];
    if curStart < we {
      periods := periods + [Slice(curStart, we, curStatus)];
    } else {
      assert periods + [] == periods;
    }
    BillingSlicesTile(events, ws, we, ws, start);
    if ws < we {
      TilesTotal(periods, ws, we);
    }
  }

  /** The status running into the window after the events at or before its start:
      the last of them with a non-empty `to_status` wins. */
  function PreWindowFold(pre: seq<StatusEvent>, ws: int, s: Status): Status
    decreases |pre|
  {
    if pre == [] then s else PreWindowFold(pre[1..], ws, PreWindowStatus(pre[0], ws, s))
  }

  /** Last one wins: appending an event at or before the window start replaces the
      running status by its `to_status` (when that is non-empty). */
  lemma {:induction false} PreWindowLastWins(pre: seq<StatusEvent>, e: StatusEvent, ws: int, s: Status)
    ensures PreWindowFold(pre + [e], ws, s) == PreWindowStatus(e, ws, PreWindowFold(pre, ws, s))
    ensures AtOrBefore(e, ws) && e.toStatus != "" ==> PreWindowFold(pre + [e], ws, s) == ParseStatus(e.toStatus)
    decreases |pre|
  {
    if pre == [] {
      assert [e][1..] == [];
    } else {
      assert (pre + [e])[1..] == pre[1..] + [e];
      PreWindowLastWins(pre[1..], e, ws, PreWindowStatus(pre[0], ws, s));
    }
  }

  /** Events at or before the window start add no slice: they only set the status the
      first slice starts with. */
  lemma {:induction false} PreWindowEventsOnlySetStatus(pre: seq<StatusEvent>, rest: seq<StatusEvent>,
                                                      ws: int, we: int, s: Status)
    requires forall e :: e in pre ==> AtOrBefore(e, ws)
    ensures BillingSlices(pre + rest, ws, we, ws, s) == BillingSlices(rest, ws, we, ws, PreWindowFold(pre, ws, s))
    decreases |pre|
  {
    if pre == [] {
      assert pre + rest == rest;
    } else {
      assert (pre + rest)[0] == pre[0] && (pre + rest)[1..] == pre[1..] + rest;
      assert pre[0] in pre;
      assert forall e :: e in pre[1..] ==> e in pre;
      PreWindowEventsOnlySetStatus(pre[1..], rest, ws, we, PreWindowStatus(pre[0], ws, s));
    }
  }

  /** Events at or after the window end (or without a time) add no slice and do not
      change the status: one slice runs from the cursor to the window end. */
  lemma {:induction false} LateEventsIgnored(events: seq<StatusEvent>, ws: int, we: int, cur: int, s: Status)
    requires ws < we && cur < we
    requires forall e :: e in events ==> e.changedAt.None? || e.changedAt.value >= we
    ensures BillingSlices(events, ws, we, cur, s) == [Slice(cur, we, s)]
    decreases |events|
  {
    if events != [] {
      assert events[0] in events;
      assert forall e :: e in events[1..] ==> e in events;
      LateEventsIgnored(events[1..], ws, we, cur, s);
    }
  }

  /** Two events at the same instant inside the window: the first one opens the slice and
      sets its status; the second ties the cursor and is ignored. */
  lemma TieInsideWindowFirstWins(e1: StatusEvent, e2: StatusEvent, rest: seq<StatusEvent>,
                                 ws: int, we: int, cur: int, s: Status)
    requires e1.changedAt.Some? && e2.changedAt == e1.changedAt
    requires ws <= cur < e1.changedAt.value < we
    ensures BillingSlices([e1, e2] + rest, ws, we, cur, s)
            == [Slice(cur, e1.changedAt.value, s)]
               + BillingSlices(rest, ws, we, e1.changedAt.value, ParseStatus(e1.toStatus))
  {
    var t := e1.changedAt.value;
    assert ([e1, e2] + rest)[0] == e1 && ([e1, e2] + rest)[1..] == [e2] + rest;
    assert ([e2] + rest)[0] == e2 && ([e2] + rest)[1..] == rest;
    assert PreWindowStatus(e2, ws, ParseStatus(e1.toStatus)) == ParseStatus(e1.toStatus);
  }

  /** Events strictly inside the window at strictly increasing times give one slice each,
      after the opening slice: the statuses are the start status followed by the parsed
      `to_status` of every event, in order. */
  lemma {:induction false} InWindowEventsOneSliceEach(events: seq<StatusEvent>, ws: int, we: int,
                                                    cur: int, s: Status)
    requires ws <= cur < we
    requires StrictlyInside(events, cur, we)
    ensures var r := BillingSlices(events, ws, we, cur, s);
            && |r| == |events| + 1 && r[0].start == cur && r[0].status == s
            && forall k :: 0 <= k < |events| ==>
                 r[k + 1].start == events[k].changedAt.value && r[k + 1].status == ParseStatus(events[k].toStatus)
    decreases |events|
  {
    if events != [] {
      var e := events[0];
      var t := e.changedAt.value;
      StrictlyInsideTail(events, cur, we);
      InWindowEventsOneSliceEach(events[1..], ws, we, t, ParseStatus(e.toStatus));
      var rest := BillingSlices(events[1..], ws, we, t, ParseStatus(e.toStatus));
      var r := [Slice(cur, t, s)] + rest;
      assert BillingSlices(events, ws, we, cur, s) == r;
      forall k | 0 <= k < |events|
        ensures r[k + 1].start == events[k].changedAt.value && r[k + 1].status == ParseStatus(events[k].toStatus)
      {
        assert r[k + 1] == rest[k];
        if k > 0 {
          assert events[1..][k - 1] == events[k];
        }
      }
    }
  }

  // ---------------------------------------------------------------- one period

  /** The clipped window start: `max(period_start, created_at or period_start)`. */
  function ClippedStart(createdAt: Option<int>, periodEnd: int): (ws: int)
    ensures ws >= periodEnd - Day
    ensures createdAt.Some? ==> ws >= createdAt.value
    ensures ws == periodEnd - Day || (createdAt.Some? && ws == createdAt.value)
  {
    var periodStart := periodEnd - Day;
    if createdAt.Some? && createdAt.value > periodStart then createdAt.value else periodStart
  }

  /** The period ends at or before the instance was created. */
  predicate BeforeCreation(createdAt: Option<int>, periodEnd: int)
  {
    createdAt.Some? && periodEnd <= createdAt.value
  }

  /** The slices of the period ending at `periodEnd`, from the events the query fetches and
      the status at the clipped start. */
  function PeriodSlices(history: seq<StatusEvent>, stored: Status, createdAt: Option<int>, periodEnd: int): seq<Slice>
  {
    var ws := ClippedStart(createdAt, periodEnd);
    BillingSlices(Fetch(history, ws - CushionSeconds, periodEnd), ws, periodEnd, ws,
                  StartingStatus(history, ws, stored))
  }

  function PeriodCharge(bot: Bot, billable: set<string>, history: seq<StatusEvent>, stored: Status,
                        createdAt: Option<int>, periodEnd: int): int
  {
    Charge(bot.rate, BillableSeconds(PeriodSlices(history, stored, createdAt, periodEnd), billable))
  }

  /** A period that is not wholly before creation is covered exactly by its slices, and
      its billable seconds lie between zero and the clipped length, which is at most a day. */
  lemma PeriodBillableWithinPeriod(history: seq<StatusEvent>, stored: Status, createdAt: Option<int>,
                                   periodEnd: int, billable: set<string>)
    requires !BeforeCreation(createdAt, periodEnd)
    ensures var ws := ClippedStart(createdAt, periodEnd);
            var p := PeriodSlices(history, stored, createdAt, periodEnd);
            && ws < periodEnd
            && Tiles(p, ws, periodEnd)
            && 0 <= BillableSeconds(p, billable) <= periodEnd - ws <= Day
  {
    var ws := ClippedStart(createdAt, periodEnd);
    var p := PeriodSlices(history, stored, createdAt, periodEnd);
    BillingSlicesTile(Fetch(history, ws - CushionSeconds, periodEnd), ws, periodEnd, ws,
                      StartingStatus(history, ws, stored));
    TilesAt(p, ws, periodEnd);
    TilesTotal(p, ws, periodEnd);
    BillableWithinTotal(p, billable);
  }

  /** A period's charge is at most a thirtieth of a non-negative monthly rate, rounded up. */
  lemma PeriodChargeBounded(bot: Bot, billable: set<string>, history: seq<StatusEvent>, stored: Status,
                            createdAt: Option<int>, periodEnd: int)
    requires bot.rate >= 0 && !BeforeCreation(createdAt, periodEnd)
    ensures 0 <= PeriodCharge(bot, billable, history, stored, createdAt, periodEnd) <= CeilDiv(bot.rate, 30)
  {
    PeriodBillableWithinPeriod(history, stored, createdAt, periodEnd, billable);
    ChargeAtMostDailyShare(bot.rate, BillableSeconds(PeriodSlices(history, stored, createdAt, periodEnd), billable));
  }

  /** The event recorded when an instance runs out of balance. */
  function OutOfBalanceEvents(inst: int, prev: Status): seq<PendingEvent>
  {
    if prev == NotEnoughBalance then []
    else [PendingEvent(inst, Some(StatusValue(prev)), StatusValue(NotEnoughBalance))]
  }

  /** The summation loop of `_bill_once_for_period`: seconds spent in billable statuses. */
  method SumBillable(periods: seq<Slice>, billable: set<string>) returns (billableSeconds: int)
    ensures billableSeconds == BillableSeconds(periods, billable)
  {
    billableSeconds := 0;
    for i := 0 to |periods|
      invariant billableSeconds == BillableSeconds(periods[..i], billable)
    {
      var p := periods[i];
      assert periods[..i + 1][..i] == periods[..i];
      if StatusValue(p.status) in billable {
        billableSeconds := billableSeconds + (p.end - p.start);
      }
    }
    assert periods[..|periods|] == periods;
  }

  /** The charge part of `_bill_once_for_period`: fetch the events, reconstruct the
      slices, sum the billable seconds and prorate. */
  method ComputeCharge(bot: Bot, billable: set<string>, history: seq<StatusEvent>, stored: Status,
                       createdAt: Option<int>, periodEnd: int)
    returns (charge: int)
    ensures charge == PeriodCharge(bot, billable, history, stored, createdAt, periodEnd)
  {
    var ws := ClippedStart(createdAt, periodEnd);
    var events := Fetch(history, ws - CushionSeconds, periodEnd);
    var startStatus := StartingStatus(history, ws, stored);
    var periods := PeriodsFromEvents(events, ws, periodEnd, startStatus);
    var billableSeconds := SumBillable(periods, billable);
    charge := Charge(bot.rate, billableSeconds);
  }

  /** What billing an instance reads and never changes: its id and creation time, its
      bot, its stored status events and the billable status values. */
  datatype Terms = Terms(id: int, createdAt: Option<int>, bot: Bot, history: seq<StatusEvent>,
                         billable: set<string>)

  function TermsOf(inst: Instance, bot: Bot, history: seq<StatusEvent>, billable: set<string>): Terms
  {
    Terms(inst.id, inst.createdAt, bot, history, billable)
  }

  /** The billing fields of an instance. */
  datatype Schedule = Schedule(status: Status, lastChargeAt: Option<int>, nextChargeAt: Option<int>)

  function ScheduleOf(inst: Instance): Schedule
    reads inst
  {
    Schedule(inst.status, inst.lastChargeAt, inst.nextChargeAt)
  }

  /** What billing changes: the instance's billing fields and its user's balance. */
  datatype Ledger = Ledger(schedule: Schedule, balance: int)

  /** The result of billing: whether every period was paid, the new ledger and the
      events added to the session. */
  datatype Outcome = Outcome(ok: bool, ledger: Ledger, events: seq<PendingEvent>)

  /** What the period ending at `periodEnd` costs: nothing when it ends at or before the
      instance was created. */
  function Debit(t: Terms, stored: Status, periodEnd: int): (c: int)
    ensures c >= 0
    ensures BeforeCreation(t.createdAt, periodEnd) ==> c == 0
  {
    if BeforeCreation(t.createdAt, periodEnd) then 0
    else PeriodCharge(t.bot, t.billable, t.history, stored, t.createdAt, periodEnd)
  }

  /** A price list: what the period ending at a time costs, given the instance's stored
      status. */
  type Tariff = (Status, int) -> int

  /** The instance's own price list. */
  function TariffOf(t: Terms): Tariff
  {
    (s, p) => Debit(t, s, p)
  }

  /** No period of the instance's price list costs a negative amount. */
  lemma TariffNonNegative(t: Terms)
    ensures forall s, p :: TariffOf(t)(s, p) >= 0
  {
    forall s, p
      ensures TariffOf(t)(s, p) >= 0
    {
      assert TariffOf(t)(s, p) == Debit(t, s, p);
    }
  }

  /** The balance pays for a charge; a zero charge is paid whatever the balance. */
  predicate Covers(balance: int, c: int)
  {
    c == 0 || balance >= c
  }

  /** `_bill_once_for_period` on values, for instance `id` priced by `tariff`. */
  function BillPeriod(id: int, tariff: Tariff, a: Ledger, periodEnd: int): (r: Outcome)
  {
    var c := tariff(a.schedule.status, periodEnd);
    var moved := a.schedule.(lastChargeAt := Some(periodEnd), nextChargeAt := Some(periodEnd + Day));
    if Covers(a.balance, c) then Outcome(true, Ledger(moved, a.balance - c), [])
    else Outcome(false, Ledger(moved.(status := NotEnoughBalance), a.balance),
                 OutOfBalanceEvents(id, a.schedule.status))
  }

  /** `_bill_once_for_period`. */
  method BillOnce(session: Session, inst: Instance, user: User, bot: Bot, history: seq<StatusEvent>,
                  billable: set<string>, periodEnd: int)
    returns (ok: bool)
    modifies session, inst, user
    ensures inst.lastChargeAt == Some(periodEnd) && inst.nextChargeAt == Some(periodEnd + Day)
    ensures BeforeCreation(inst.createdAt, periodEnd) ==>
              && ok && inst.status == old(inst.status) && user.balance == old(user.balance)
              && session.added == old(session.added)
    ensures !BeforeCreation(inst.createdAt, periodEnd) ==>
              var c := PeriodCharge(bot, billable, history, old(inst.status), inst.createdAt, periodEnd);
              && (ok <==> c == 0 || old(user.balance) >= c)
              && user.balance == (if ok then old(user.balance) - c else old(user.balance))
              && inst.status == (if ok then old(inst.status) else NotEnoughBalance)
              && session.added == old(session.added)
                                  + (if ok then [] else OutOfBalanceEvents(inst.id, old(inst.status)))
    ensures var r := BillPeriod(inst.id, TariffOf(TermsOf(inst, bot, history, billable)), old(LedgerOf(inst, user)), periodEnd);
            && ok == r.ok && LedgerOf(inst, user) == r.ledger && session.added == old(session.added) + r.events
  {
    if inst.createdAt.Some? && periodEnd <= inst.createdAt.value {
      inst.lastChargeAt := Some(periodEnd);
      inst.nextChargeAt := Some(periodEnd + Day);
      return true;
    }
    var charge := ComputeCharge(bot, billable, history, inst.status, inst.createdAt, periodEnd);

    inst.lastChargeAt := Some(periodEnd);
    inst.nextChargeAt := Some(periodEnd + Day);
    if charge == 0 {
      return true;
    }
    if user.balance < charge {
      var prev := inst.status;
      if prev != NotEnoughBalance {
        inst.status := NotEnoughBalance;
        session.added := session.added
                         + [PendingEvent(inst.id, Some(StatusValue(prev)), StatusValue(NotEnoughBalance))];
      }
      return false;
    }
    user.balance := user.balance - charge;
    ok := true;
  }

  // ---------------------------------------------------------------- catching up

  /** The first period end of an instance without a schedule. */
  function InitialNextCharge(createdAt: Option<int>, now: int): int
  {
    (if createdAt.Some? then createdAt.value else now) + Day
  }

  /** `if not inst.next_charge_at`: an unset schedule starts a day after creation (or
      after `now` when the creation time is unknown). */
  function Scheduled(a: Ledger, createdAt: Option<int>, now: int): (r: Ledger)
    ensures r.schedule.nextChargeAt.Some?
    ensures a.schedule.nextChargeAt.Some? ==> r == a
    ensures a.schedule.nextChargeAt.None? ==>
              r == a.(schedule := a.schedule.(nextChargeAt := Some(InitialNextCharge(createdAt, now))))
  {
    if a.schedule.nextChargeAt.Some? then a
    else a.(schedule := a.schedule.(nextChargeAt := Some(InitialNextCharge(createdAt, now))))
  }

  /** The loop of `_bill_instance_until_caught_up` on values: bill the period ending at the
      next charge while it is due, and stop after the first period the balance does not
      cover. */
  function CatchUp(id: int, tariff: Tariff, a: Ledger, now: int): Outcome
    requires a.schedule.nextChargeAt.Some?
    decreases now - a.schedule.nextChargeAt.value
  {
    if a.schedule.nextChargeAt.value > now then Outcome(true, a, [])
    else
      var r := BillPeriod(id, tariff, a, a.schedule.nextChargeAt.value);
      if !r.ok then r else CatchUp(id, tariff, r.ledger, now)
  }

  /** How many periods `CatchUp` bills. */
  function PeriodsBilled(id: int, tariff: Tariff, a: Ledger, now: int): nat
    requires a.schedule.nextChargeAt.Some?
    decreases now - a.schedule.nextChargeAt.value
  {
    if a.schedule.nextChargeAt.value > now then 0
    else
      var r := BillPeriod(id, tariff, a, a.schedule.nextChargeAt.value);
      if !r.ok then 1 else 1 + PeriodsBilled(id, tariff, r.ledger, now)
  }

  /** The charges of the `n` consecutive periods ending at `first`, `first + Day`, ... */
  function Debits(tariff: Tariff, stored: Status, first: int, n: nat): int
    decreases n
  {
    if n == 0 then 0 else tariff(stored, first) + Debits(tariff, stored, first + Day, n - 1)
  }

  /** Starting from `balance`, each of the `n` consecutive periods ending at `first`,
      `first + Day`, ... is covered by what the earlier ones left. */
  predicate Paid(tariff: Tariff, stored: Status, balance: int, first: int, n: nat)
    decreases n
  {
    n == 0
    || (Covers(balance, tariff(stored, first))
        && Paid(tariff, stored, balance - tariff(stored, first), first + Day, n - 1))
  }

  /** The closed form of catching up from a ledger whose next charge is `first`: `n` whole
      days of periods are billed, the last of them ending at or before `now`; the paid
      periods were each covered by the balance left at their turn, and the balance is
      debited by exactly their charges. The loop stops at the first period end after `now`,
      or right after the first period the balance left does not cover, leaving the instance
      out of balance. */
  lemma {:induction false} CatchUpClosedForm(id: int, tariff: Tariff, a: Ledger, now: int)
    requires a.schedule.nextChargeAt.Some?
    ensures var first := a.schedule.nextChargeAt.value;
            var r := CatchUp(id, tariff, a, now);
            var n := PeriodsBilled(id, tariff, a, now);
            var paid := if r.ok then n else n - 1;
            var s := a.schedule.status;
            && r.ledger.schedule.nextChargeAt == Some(first + n * Day)
            && (n == 0 <==> first > now)
            && (n == 0 ==> r == Outcome(true, a, []))
            && (n > 0 ==> first + (n - 1) * Day <= now
                          && r.ledger.schedule.lastChargeAt == Some(first + (n - 1) * Day))
            && (r.ok ==> first + n * Day > now && r.ledger.schedule.status == s && r.events == [])
            && (!r.ok ==> && n > 0 && r.ledger.schedule.status == NotEnoughBalance
                          && r.events == OutOfBalanceEvents(id, s)
                          && !Covers(r.ledger.balance, tariff(s, first + (n - 1) * Day)))
            && Paid(tariff, s, a.balance, first, paid)
            && r.ledger.balance == a.balance - Debits(tariff, s, first, paid)
    decreases now - a.schedule.nextChargeAt.value
  {
    var p := a.schedule.nextChargeAt.value;
    if p <= now {
      var b := BillPeriod(id, tariff, a, p);
      if b.ok {
        CatchUpClosedForm(id, tariff, b.ledger, now);
        var n := PeriodsBilled(id, tariff, b.ledger, now);
        assert p + Day + n * Day == p + (n + 1) * Day;
        assert n > 0 ==> p + Day + (n - 1) * Day == p + n * Day;
      }
    }
  }

  /** With no negative charge, catching up never raises the balance, and a balance that
      was not negative stays so. */
  lemma {:induction false} CatchUpBalance(id: int, tariff: Tariff, a: Ledger, now: int)
    requires a.schedule.nextChargeAt.Some?
    requires forall s, p :: tariff(s, p) >= 0
    ensures CatchUp(id, tariff, a, now).ledger.balance <= a.balance
    ensures a.balance >= 0 ==> CatchUp(id, tariff, a, now).ledger.balance >= 0
    decreases now - a.schedule.nextChargeAt.value
  {
    if a.schedule.nextChargeAt.value <= now {
      var r := BillPeriod(id, tariff, a, a.schedule.nextChargeAt.value);
      if r.ok {
        CatchUpBalance(id, tariff, r.ledger, now);
      }
    }
  }

  /** A caught-up instance is not due: catching up again at the same time bills nothing. */
  lemma CatchUpIdempotent(id: int, tariff: Tariff, a: Ledger, now: int)
    requires a.schedule.nextChargeAt.Some?
    requires CatchUp(id, tariff, a, now).ok
    ensures var b := CatchUp(id, tariff, a, now).ledger;
            b.schedule.nextChargeAt.Some? && CatchUp(id, tariff, b, now) == Outcome(true, b, [])
  {
    CatchUpClosedForm(id, tariff, a, now);
  }

  /** The billing fields of an instance and its user's balance. */
  function LedgerOf(inst: Instance, user: User): Ledger
    reads inst, user
  {
    Ledger(ScheduleOf(inst), user.balance)
  }

  /** `_bill_instance_until_caught_up`: returns `(ok, deactivate)`. */
  method BillUntilCaughtUp(session: Session, inst: Instance, user: User, bot: Bot,
                           history: seq<StatusEvent>, billable: set<string>, now: int)
    returns (ok: bool, deactivate: bool)
    modifies session, inst, user
    ensures var r := CatchUp(inst.id, TariffOf(TermsOf(inst, bot, history, billable)),
                             Scheduled(old(LedgerOf(inst, user)), inst.createdAt, now), now);
            && ok == r.ok && deactivate == !ok
            && LedgerOf(inst, user) == r.ledger
            && session.added == old(session.added) + r.events
  {
    ghost var tariff := TariffOf(TermsOf(inst, bot, history, billable));
    deactivate := false;
    if inst.nextChargeAt.None? {
      inst.nextChargeAt := Some(InitialNextCharge(inst.createdAt, now));
    }
    ghost var start := LedgerOf(inst, user);
    while inst.nextChargeAt.Some? && inst.nextChargeAt.value <= now
      invariant inst.nextChargeAt.Some?
      invariant !deactivate
      invariant CatchUp(inst.id, tariff, LedgerOf(inst, user), now) == CatchUp(inst.id, tariff, start, now)
      invariant session.added == old(session.added)
      decreases now - inst.nextChargeAt.value
    {
      var periodEnd := inst.nextChargeAt.value;
      var billed := BillOnce(session, inst, user, bot, history, billable, periodEnd);
      if !billed {
        deactivate := true;
        break;
      }
    }
    ok := !deactivate;
  }

  // ---------------------------------------------------------------- the sweep

  /** One row of the sweep's query: an instance joined with its user and bot, and the
      instance's stored status events. */
  datatype Row = Row(inst: Instance, user: User, bot: Bot, history: seq<StatusEvent>)

  function TermsOfRow(row: Row, billable: set<string>): Terms
  {
    TermsOf(row.inst, row.bot, row.history, billable)
  }

  /** The price lists of the rows, given the billable statuses. */
  function PriceList(billable: set<string>): Row -> Tariff
  {
    row => TariffOf(TermsOfRow(row, billable))
  }

  /** No row's price list charges a negative amount. */
  lemma PriceListNonNegative(billable: set<string>)
    ensures forall row, s, p :: PriceList(billable)(row)(s, p) >= 0
  {
    forall row, s, p
      ensures PriceList(billable)(row)(s, p) >= 0
    {
      TariffNonNegative(TermsOfRow(row, billable));
    }
  }

  /** The instances of the rows. */
  ghost function Instances(rows: seq<Row>): set<Instance>
  {
    if rows == [] then {} else {rows[0].inst} + Instances(rows[1..])
  }

  /** The users of the rows. */
  ghost function Users(rows: seq<Row>): set<User>
  {
    if rows == [] then {} else {rows[0].user} + Users(rows[1..])
  }

  /** `Instances` holds exactly the rows' instances. */
  lemma {:induction false} InstanceMembers(rows: seq<Row>)
    ensures forall j :: 0 <= j < |rows| ==> rows[j].inst in Instances(rows)
    ensures forall x :: x in Instances(rows) ==> exists j :: 0 <= j < |rows| && rows[j].inst == x
  {
    if rows != [] {
      var tail := rows[1..];
      InstanceMembers(tail);
      forall j | 0 < j < |rows|
        ensures rows[j].inst in Instances(rows)
      {
        assert rows[j] == tail[j - 1];
      }
      forall x | x in Instances(rows)
        ensures exists j :: 0 <= j < |rows| && rows[j].inst == x
      {
        if x != rows[0].inst {
          var k :| 0 <= k < |tail| && tail[k].inst == x;
          assert rows[k + 1] == tail[k];
        }
      }
    }
  }

  /** `Users` holds exactly the rows' users. */
  lemma {:induction false} UserMembers(rows: seq<Row>)
    ensures forall j :: 0 <= j < |rows| ==> rows[j].user in Users(rows)
    ensures forall u :: u in Users(rows) ==> exists j :: 0 <= j < |rows| && rows[j].user == u
  {
    if rows != [] {
      var tail := rows[1..];
      UserMembers(tail);
      forall j | 0 < j < |rows|
        ensures rows[j].user in Users(rows)
      {
        assert rows[j] == tail[j - 1];
      }
      forall u | u in Users(rows)
        ensures exists j :: 0 <= j < |rows| && rows[j].user == u
      {
        if u != rows[0].user {
          var k :| 0 <= k < |tail| && tail[k].user == u;
          assert rows[k + 1] == tail[k];
        }
      }
    }
  }

  lemma RowInFrame(rows: seq<Row>, i: int)
    requires 0 <= i < |rows|
    ensures rows[i].inst in Instances(rows) && rows[i].user in Users(rows)
  {
    InstanceMembers(rows);
    UserMembers(rows);
  }

  /** `WHERE next_charge_at <= now` (a NULL schedule is never due). */
  predicate Due(nextChargeAt: Option<int>, now: int)
  {
    nextChargeAt.Some? && nextChargeAt.value <= now
  }

  /** What the sweep changes: each instance's billing fields, each user's balance (a user
      may own several instances), the session's events and the ids to deactivate. */
  datatype SweepState = SweepState(schedules: map<Instance, Schedule>, balances: map<User, int>,
                                   added: seq<PendingEvent>, toDeactivate: seq<string>)

  ghost predicate Covering(rows: seq<Row>, st: SweepState)
  {
    forall r :: r in rows ==> r.inst in st.schedules && r.user in st.balances
  }

  /** The ledger row `row` is billed from in state `st`. */
  ghost function LedgerAt(st: SweepState, row: Row): Ledger
    requires row.inst in st.schedules && row.user in st.balances
  {
    Ledger(st.schedules[row.inst], st.balances[row.user])
  }

  /** Row `row` is due in state `st` and its transaction commits. */
  ghost predicate Commits(row: Row, st: SweepState, now: int, failing: set<int>)
    requires row.inst in st.schedules
  {
    Due(st.schedules[row.inst].nextChargeAt, now) && row.inst.id !in failing
  }

  /** The catch-up of a due row from state `st`. */
  ghost function RowCatchUp(row: Row, st: SweepState, price: Row -> Tariff, now: int): Outcome
    requires row.inst in st.schedules && row.user in st.balances
    requires Due(st.schedules[row.inst].nextChargeAt, now)
  {
    CatchUp(row.inst.id, price(row), LedgerAt(st, row), now)
  }

  /** One turn of the sweep's loop on values: a due row is caught up in its own
      transaction; the transaction commits unless the row is failing, and a committed
      row that stopped is queued for deactivation. */
  ghost function SweepStep(row: Row, st: SweepState, price: Row -> Tariff, now: int, failing: set<int>)
    : (r: SweepState)
    requires row.inst in st.schedules && row.user in st.balances
    ensures r.schedules.Keys == st.schedules.Keys && r.balances.Keys == st.balances.Keys
  {
    if !Commits(row, st, now, failing) then st
    else
      var r := RowCatchUp(row, st, price, now);
      SweepState(st.schedules[row.inst := r.ledger.schedule], st.balances[row.user := r.ledger.balance],
                 st.added + r.events, st.toDeactivate + (if r.ok then [] else [row.inst.externalId]))
  }

  /** The sweep's loop from row `i` on. */
  ghost function Sweep(rows: seq<Row>, i: nat, st: SweepState, price: Row -> Tariff, now: int, failing: set<int>)
    : (r: SweepState)
    requires i <= |rows| && Covering(rows, st)
    ensures r.schedules.Keys == st.schedules.Keys && r.balances.Keys == st.balances.Keys
    decreases |rows| - i
  {
    if i == |rows| then st
    else Sweep(rows, i + 1, SweepStep(rows[i], st, price, now, failing), price, now, failing)
  }

  /** The sweep's state in the heap. */
  ghost function StateOf(rows: seq<Row>, session: Session, toDeactivate: seq<string>): (r: SweepState)
    reads Instances(rows), Users(rows), session
    ensures Covering(rows, r)
  {
    InstanceMembers(rows);
    UserMembers(rows);
    SweepState(map x | x in Instances(rows) :: ScheduleOf(x), map u | u in Users(rows) :: u.balance,
               session.added, toDeactivate)
  }

  /** The body of the sweep's loop for one row: begin, catch up, commit; when the
      transaction fails (`row.inst.id in failing`), roll back and carry on. */
  method BillRow(session: Session, row: Row, billable: set<string>, now: int, failing: set<int>)
    returns (deactivate: bool)
    modifies session, row.inst, row.user
    ensures var r := CatchUp(row.inst.id, PriceList(billable)(row),
                             Scheduled(old(LedgerOf(row.inst, row.user)), row.inst.createdAt, now), now);
            if row.inst.id in failing then
              && LedgerOf(row.inst, row.user) == old(LedgerOf(row.inst, row.user))
              && session.added == old(session.added) && !deactivate
            else
              && LedgerOf(row.inst, row.user) == r.ledger
              && session.added == old(session.added) + r.events
              && deactivate == !r.ok
  {
    var before, balance, added := ScheduleOf(row.inst), row.user.balance, session.added;
    var _, needDeactivate := BillUntilCaughtUp(session, row.inst, row.user, row.bot, row.history, billable, now);
    deactivate := false;
    if row.inst.id in failing {
      row.inst.status, row.inst.lastChargeAt, row.inst.nextChargeAt := before.status, before.lastChargeAt, before.nextChargeAt;
      row.user.balance := balance;
      session.added := added;
    } else {
      deactivate := needDeactivate;
    }
  }

  /** One turn of the sweep's loop on one row: the row is billed in its own transaction
      when it is due, and its external id is queued when the committed catch-up stopped. */
  method TurnRow(session: Session, row: Row, billable: set<string>, now: int, failing: set<int>,
                 toDeactivate: seq<string>)
    returns (queued: seq<string>)
    modifies session, row.inst, row.user
    ensures var a := old(LedgerOf(row.inst, row.user));
            if !(Due(a.schedule.nextChargeAt, now) && row.inst.id !in failing) then
              && LedgerOf(row.inst, row.user) == a && session.added == old(session.added)
              && queued == toDeactivate
            else
              var r := CatchUp(row.inst.id, PriceList(billable)(row), a, now);
              && LedgerOf(row.inst, row.user) == r.ledger && session.added == old(session.added) + r.events
              && queued == toDeactivate + (if r.ok then [] else [row.inst.externalId])
  {
    queued := toDeactivate;
    if Due(row.inst.nextChargeAt, now) {
      var deactivate := BillRow(session, row, billable, now, failing);
      if deactivate {
        queued := queued + [row.inst.externalId];
      }
    }
  }

  /** `TurnRow` on the sweep's state: it takes the sweep one step. */
  method SweepRow(session: Session, rows: seq<Row>, i: int, billable: set<string>, now: int, failing: set<int>,
                  toDeactivate: seq<string>)
    returns (queued: seq<string>)
    requires 0 <= i < |rows|
    modifies session, rows[i].inst, rows[i].user
    ensures StateOf(rows, session, queued)
            == SweepStep(rows[i], old(StateOf(rows, session, toDeactivate)), PriceList(billable), now, failing)
  {
    queued := TurnRow(session, rows[i], billable, now, failing, toDeactivate);
    TurnIsStep(rows, i, session, toDeactivate, queued, PriceList(billable), now, failing);
  }

  /** What `TurnRow` promises, on values: from ledger `a`, events `added` and queue
      `toDeactivate`, the turn leaves ledger `b`, events `added'` and queue `queued`. */
  ghost predicate Turned(row: Row, a: Ledger, b: Ledger, added: seq<PendingEvent>, added': seq<PendingEvent>,
                         toDeactivate: seq<string>, queued: seq<string>, price: Row -> Tariff, now: int,
                         failing: set<int>)
  {
    if !(Due(a.schedule.nextChargeAt, now) && row.inst.id !in failing) then
      b == a && added' == added && queued == toDeactivate
    else
      var r := CatchUp(row.inst.id, price(row), a, now);
      b == r.ledger && added' == added + r.events
      && queued == toDeactivate + (if r.ok then [] else [row.inst.externalId])
  }

  /** A turn that changed only row `i`'s instance and user, as `TurnRow` promises, takes
      the sweep's state one step. */
  twostate lemma TurnIsStep(rows: seq<Row>, new i: int, new session: Session, new toDeactivate: seq<string>,
                            new queued: seq<string>, new price: Row -> Tariff, new now: int, new failing: set<int>)
    requires 0 <= i < |rows| && old(allocated(session))
    requires forall j :: 0 <= j < |rows| && rows[j].inst != rows[i].inst ==> unchanged(rows[j].inst)
    requires forall j :: 0 <= j < |rows| && rows[j].user != rows[i].user ==> unchanged(rows[j].user)
    requires Turned(rows[i], old(LedgerOf(rows[i].inst, rows[i].user)), LedgerOf(rows[i].inst, rows[i].user),
                    old(session.added), session.added, toDeactivate, queued, price, now, failing)
    ensures StateOf(rows, session, queued)
            == SweepStep(rows[i], old(StateOf(rows, session, toDeactivate)), price, now, failing)
  {
    ghost var st := old(StateOf(rows, session, toDeactivate));
    assert rows[i] in rows;
    assert LedgerAt(st, rows[i]) == old(LedgerOf(rows[i].inst, rows[i].user));
    HeapSchedules(rows, i, session, toDeactivate, queued);
    HeapBalances(rows, i, session, toDeactivate, queued);
    StepOutcome(rows[i], st, ScheduleOf(rows[i].inst), rows[i].user.balance, session.added, queued,
                price, now, failing);
  }

  /** The instances' schedules after a turn that changed only row `i`'s instance. */
  twostate lemma HeapSchedules(rows: seq<Row>, new i: int, new session: Session, new toDeactivate: seq<string>,
                               new queued: seq<string>)
    requires 0 <= i < |rows| && old(allocated(session))
    requires forall j :: 0 <= j < |rows| && rows[j].inst != rows[i].inst ==> unchanged(rows[j].inst)
    ensures StateOf(rows, session, queued).schedules
            == old(StateOf(rows, session, toDeactivate)).schedules[rows[i].inst := ScheduleOf(rows[i].inst)]
  {
    InstanceMembers(rows);
    var m, m0 := StateOf(rows, session, queued).schedules, old(StateOf(rows, session, toDeactivate)).schedules;
    forall x | x in Instances(rows)
      ensures m[x] == m0[rows[i].inst := ScheduleOf(rows[i].inst)][x]
    {
      if x != rows[i].inst {
        var j :| 0 <= j < |rows| && rows[j].inst == x;
      }
    }
  }

  /** The users' balances after a turn that changed only row `i`'s user. */
  twostate lemma HeapBalances(rows: seq<Row>, new i: int, new session: Session, new toDeactivate: seq<string>,
                              new queued: seq<string>)
    requires 0 <= i < |rows| && old(allocated(session))
    requires forall j :: 0 <= j < |rows| && rows[j].user != rows[i].user ==> unchanged(rows[j].user)
    ensures StateOf(rows, session, queued).balances
            == old(StateOf(rows, session, toDeactivate)).balances[rows[i].user := rows[i].user.balance]
  {
    UserMembers(rows);
    var m, m0 := StateOf(rows, session, queued).balances, old(StateOf(rows, session, toDeactivate)).balances;
    forall u | u in Users(rows)
      ensures m[u] == m0[rows[i].user := rows[i].user.balance][u]
    {
      if u != rows[i].user {
        var j :| 0 <= j < |rows| && rows[j].user == u;
      }
    }
  }

  /** The step's new state, given what it does to the row's instance and user, the
      session and the queue. */
  lemma StepOutcome(row: Row, st: SweepState, schedule: Schedule, balance: int, added: seq<PendingEvent>,
                    queued: seq<string>, price: Row -> Tariff, now: int, failing: set<int>)
    requires row.inst in st.schedules && row.user in st.balances
    requires !Commits(row, st, now, failing) ==>
               && schedule == st.schedules[row.inst] && balance == st.balances[row.user]
               && added == st.added && queued == st.toDeactivate
    requires Commits(row, st, now, failing) ==>
               var r := RowCatchUp(row, st, price, now);
               && schedule == r.ledger.schedule && balance == r.ledger.balance
               && added == st.added + r.events
               && queued == st.toDeactivate + (if r.ok then [] else [row.inst.externalId])
    ensures SweepStep(row, st, price, now, failing)
            == SweepState(st.schedules[row.inst := schedule], st.balances[row.user := balance], added, queued)
  {
    if !Commits(row, st, now, failing) {
      assert st.schedules[row.inst := schedule] == st.schedules;
      assert st.balances[row.user := balance] == st.balances;
    }
  }

  /** The locked part of `process_due_instances`: every due row is billed in its own
      transaction, in row order; a rolled-back row does not stop the loop. Returns the
      external ids of the instances to deactivate. */
  method BillDueRows(session: Session, rows: seq<Row>, billable: set<string>, now: int, failing: set<int>)
    returns (toDeactivate: seq<string>)
    modifies session, Instances(rows), Users(rows)
    ensures StateOf(rows, session, toDeactivate)
            == Sweep(rows, 0, old(StateOf(rows, session, [])), PriceList(billable), now, failing)
  {
    toDeactivate := [];
    ghost var price := PriceList(billable);
    ghost var goal := Sweep(rows, 0, StateOf(rows, session, []), price, now, failing);
    for i := 0 to |rows|
      invariant Sweep(rows, i, StateOf(rows, session, toDeactivate), price, now, failing) == goal
    {
      RowInFrame(rows, i);
      toDeactivate := SweepRow(session, rows, i, billable, now, failing, toDeactivate);
    }
  }

  /** `process_due_instances`: the sweep runs only under the lock `billing:lock`, taken
      at `now` and released at `releasedAt`; `token` is the lock's fresh token and
      `releaseFails` says whether the release script errs (the error is swallowed). The
      billable statuses come from the configured list. Returns whether the lock was
      acquired, whether taking it raised (the store rejects a non-positive TTL, and the
      error leaves the function before the sweep), and the external ids to deactivate. */
  method ProcessDue(store: Store, token: string, ttl: int, now: int, releasedAt: int, rows: seq<Row>,
                    session: Session, configured: seq<string>, failing: set<int>, releaseFails: bool)
    returns (acquired: bool, raised: bool, toDeactivate: seq<string>)
    requires forall k :: k in store.entries ==> store.entries[k].token != token
    modifies store, session, Instances(rows), Users(rows)
    ensures raised <==> ttl <= 0
    ensures acquired <==> !raised && !Live(old(store.entries), BillingLockKey, now)
    // the lock command raised, or another worker holds the lock: nothing happens, and
    // the store is left as it was
    ensures !acquired ==> && store.entries == old(store.entries) && toDeactivate == []
                          && unchanged(session) && (forall j :: 0 <= j < |rows| ==> unchanged(rows[j].inst, rows[j].user))
    // the lock is released again, or left to expire when the release script errs or
    // comes after the TTL
    ensures acquired && !releaseFails && releasedAt < now + ttl ==>
              store.entries == old(store.entries) - {BillingLockKey}
    ensures acquired && (releaseFails || releasedAt >= now + ttl) ==>
              store.entries == old(store.entries)[BillingLockKey := Entry(token, now + ttl)]
    // the rows are swept
    ensures acquired ==> StateOf(rows, session, toDeactivate)
                         == Sweep(rows, 0, old(StateOf(rows, session, [])), PriceList(BillableSet(configured)), now,
                                  failing)
  {
    toDeactivate := [];
    ghost var held := store.entries;
    var lock := new RedisLock(BillingLockKey, ttl);
    var reply := lock.Enter(store, token, now);
    StateKept(rows, session, []);
    acquired := reply == Some(true);
    raised := reply.None?;
    if !raised {
      // the `async with` body ran, so `__aexit__` runs too
      if acquired {
        toDeactivate := BillDueRows(session, rows, BillableSet(configured), now, failing);
      }
      label Swept:
      lock.Exit(store, releasedAt, releaseFails);
      StateKept@Swept(rows, session, toDeactivate);
      LockRoundTrip(held, BillingLockKey, token, ttl, now, releasedAt, releaseFails, store.entries);
    }
  }

  /** The sweep's state does not change while its instances, users and session do not. */
  twostate lemma StateKept(rows: seq<Row>, new session: Session, new toDeactivate: seq<string>)
    requires old(allocated(session))
    requires (forall j :: 0 <= j < |rows| ==> unchanged(rows[j].inst, rows[j].user)) && unchanged(session)
    ensures StateOf(rows, session, toDeactivate) == old(StateOf(rows, session, toDeactivate))
  {
    InstanceMembers(rows);
    UserMembers(rows);
  }

  // ---------------------------------------------------------------- properties of the sweep

  /** No balance that was not negative turns negative in the sweep. */
  lemma {:induction false} SweepBalancesNonNegative(rows: seq<Row>, i: nat, st: SweepState, price: Row -> Tariff,
                                                    now: int, failing: set<int>)
    requires i <= |rows| && Covering(rows, st)
    requires forall row, s, p :: price(row)(s, p) >= 0
    ensures forall u :: u in st.balances && st.balances[u] >= 0 ==>
              Sweep(rows, i, st, price, now, failing).balances[u] >= 0
    decreases |rows| - i
  {
    if i < |rows| {
      var st1 := SweepStep(rows[i], st, price, now, failing);
      if Commits(rows[i], st, now, failing) {
        CatchUpBalance(rows[i].inst.id, price(rows[i]), LedgerAt(st, rows[i]), now);
      }
      SweepBalancesNonNegative(rows, i + 1, st1, price, now, failing);
    }
  }

  /** A schedule that is caught up (next charge after `now`) or stopped out of balance
      (the last period billed ends at or before `now`, the next one a day later). */
  predicate Settled(s: Schedule, now: int)
  {
    s.nextChargeAt.Some?
    && (s.nextChargeAt.value > now
        || (s.status == NotEnoughBalance && s.lastChargeAt.Some? && s.lastChargeAt.value <= now
            && s.nextChargeAt.value == s.lastChargeAt.value + Day))
  }

  /** Every committed row ends settled, and every other row keeps its billing fields,
      whoever else shares its user. */
  lemma {:induction false} SweepSettlesRows(rows: seq<Row>, i: nat, st: SweepState, price: Row -> Tariff,
                                            now: int, failing: set<int>)
    requires i <= |rows| && Covering(rows, st)
    requires forall j, k :: 0 <= j < k < |rows| ==> rows[j].inst != rows[k].inst
    ensures forall j :: i <= j < |rows| ==>
              var s := Sweep(rows, i, st, price, now, failing).schedules[rows[j].inst];
              if Commits(rows[j], st, now, failing) then Settled(s, now) else s == st.schedules[rows[j].inst]
    decreases |rows| - i
  {
    if i < |rows| {
      var st1 := SweepStep(rows[i], st, price, now, failing);
      assert rows[i] in rows;
      StepSettlesRow(rows[i], st, price, now, failing);
      forall j | i < j < |rows|
        ensures st1.schedules[rows[j].inst] == st.schedules[rows[j].inst]
      {
        assert rows[j] in rows;
      }
      SweepSettlesRows(rows, i + 1, st1, price, now, failing);
      SweepKeeps(rows, i + 1, st1, price, now, failing, rows[i].inst);
    }
  }

  /** One step settles its row when the row commits, and leaves it alone otherwise. */
  lemma StepSettlesRow(row: Row, st: SweepState, price: Row -> Tariff, now: int, failing: set<int>)
    requires row.inst in st.schedules && row.user in st.balances
    ensures var s := SweepStep(row, st, price, now, failing).schedules[row.inst];
            if Commits(row, st, now, failing) then Settled(s, now) else s == st.schedules[row.inst]
  {
    if Commits(row, st, now, failing) {
      CatchUpClosedForm(row.inst.id, price(row), LedgerAt(st, row), now);
    }
  }

  /** An instance that no remaining row bills keeps its billing fields. */
  lemma {:induction false} SweepKeeps(rows: seq<Row>, i: nat, st: SweepState, price: Row -> Tariff,
                                      now: int, failing: set<int>, x: Instance)
    requires i <= |rows| && Covering(rows, st) && x in st.schedules
    requires forall j :: i <= j < |rows| ==> rows[j].inst != x
    ensures Sweep(rows, i, st, price, now, failing).schedules[x] == st.schedules[x]
    decreases |rows| - i
  {
    if i < |rows| {
      SweepKeeps(rows, i + 1, SweepStep(rows[i], st, price, now, failing), price, now, failing, x);
    }
  }

  /** A user whom no remaining row bills keeps the balance. */
  lemma {:induction false} SweepKeepsBalance(rows: seq<Row>, i: nat, st: SweepState, price: Row -> Tariff,
                                             now: int, failing: set<int>, u: User)
    requires i <= |rows| && Covering(rows, st) && u in st.balances
    requires forall j :: i <= j < |rows| ==> rows[j].user != u
    ensures Sweep(rows, i, st, price, now, failing).balances[u] == st.balances[u]
    decreases |rows| - i
  {
    if i < |rows| {
      SweepKeepsBalance(rows, i + 1, SweepStep(rows[i], st, price, now, failing), price, now, failing, u);
    }
  }

  /** The external ids queued when every row from `i` on is billed from state `st`. */
  ghost function Flagged(rows: seq<Row>, i: nat, st: SweepState, price: Row -> Tariff, now: int,
                         failing: set<int>): seq<string>
    requires i <= |rows| && Covering(rows, st)
    decreases |rows| - i
  {
    if i == |rows| then []
    else
      assert rows[i] in rows;
      (if Commits(rows[i], st, now, failing) && !RowCatchUp(rows[i], st, price, now).ok
       then [rows[i].inst.externalId] else [])
      + Flagged(rows, i + 1, st, price, now, failing)
  }

  /** The events added when every row from `i` on is billed from state `st`. */
  ghost function Added(rows: seq<Row>, i: nat, st: SweepState, price: Row -> Tariff, now: int,
                       failing: set<int>): seq<PendingEvent>
    requires i <= |rows| && Covering(rows, st)
    decreases |rows| - i
  {
    if i == |rows| then []
    else
      assert rows[i] in rows;
      (if Commits(rows[i], st, now, failing) then RowCatchUp(rows[i], st, price, now).events else [])
      + Added(rows, i + 1, st, price, now, failing)
  }

  /** `Flagged` reads only the remaining rows' entries. */
  lemma {:induction false} FlaggedFrame(rows: seq<Row>, i: nat, st: SweepState, st': SweepState,
                                        price: Row -> Tariff, now: int, failing: set<int>)
    requires i <= |rows| && Covering(rows, st) && Covering(rows, st')
    requires forall j :: i <= j < |rows| ==>
               st'.schedules[rows[j].inst] == st.schedules[rows[j].inst]
               && st'.balances[rows[j].user] == st.balances[rows[j].user]
    ensures Flagged(rows, i, st', price, now, failing) == Flagged(rows, i, st, price, now, failing)
    decreases |rows| - i
  {
    if i < |rows| {
      assert rows[i] in rows;
      assert LedgerAt(st', rows[i]) == LedgerAt(st, rows[i]);
      FlaggedFrame(rows, i + 1, st, st', price, now, failing);
    }
  }

  /** `Added` reads only the remaining rows' entries. */
  lemma {:induction false} AddedFrame(rows: seq<Row>, i: nat, st: SweepState, st': SweepState,
                                      price: Row -> Tariff, now: int, failing: set<int>)
    requires i <= |rows| && Covering(rows, st) && Covering(rows, st')
    requires forall j :: i <= j < |rows| ==>
               st'.schedules[rows[j].inst] == st.schedules[rows[j].inst]
               && st'.balances[rows[j].user] == st.balances[rows[j].user]
    ensures Added(rows, i, st', price, now, failing) == Added(rows, i, st, price, now, failing)
    decreases |rows| - i
  {
    if i < |rows| {
      assert rows[i] in rows;
      assert LedgerAt(st', rows[i]) == LedgerAt(st, rows[i]);
      AddedFrame(rows, i + 1, st, st', price, now, failing);
    }
  }

  /** With no instance or user shared between rows, billing row `i` leaves the later rows'
      entries as they were. */
  lemma StepKeepsLaterRows(rows: seq<Row>, i: nat, st: SweepState, price: Row -> Tariff, now: int,
                           failing: set<int>)
    requires i < |rows| && Covering(rows, st)
    requires forall j, k :: 0 <= j < k < |rows| ==> rows[j].inst != rows[k].inst && rows[j].user != rows[k].user
    ensures var st1 := SweepStep(rows[i], st, price, now, failing);
            forall j :: i < j < |rows| ==>
              st1.schedules[rows[j].inst] == st.schedules[rows[j].inst]
              && st1.balances[rows[j].user] == st.balances[rows[j].user]
  {
    var st1 := SweepStep(rows[i], st, price, now, failing);
    forall j | i < j < |rows|
      ensures st1.schedules[rows[j].inst] == st.schedules[rows[j].inst]
      ensures st1.balances[rows[j].user] == st.balances[rows[j].user]
    {
      assert rows[j] in rows;
    }
  }

  lemma AppendAssociative<T>(a: seq<T>, b: seq<T>, c: seq<T>)
    ensures a + b + c == a + (b + c)
  {
  }

  /** With no instance or user shared between rows, the queue gains exactly the committed
      rows whose catch-up stopped, in row order, each judged from the starting state. */
  lemma {:induction false} SweepFlags(rows: seq<Row>, i: nat, st: SweepState, price: Row -> Tariff, now: int,
                                      failing: set<int>)
    requires i <= |rows| && Covering(rows, st)
    requires forall j, k :: 0 <= j < k < |rows| ==> rows[j].inst != rows[k].inst && rows[j].user != rows[k].user
    ensures Sweep(rows, i, st, price, now, failing).toDeactivate
            == st.toDeactivate + Flagged(rows, i, st, price, now, failing)
    decreases |rows| - i
  {
    if i < |rows| {
      var st1 := SweepStep(rows[i], st, price, now, failing);
      SweepFlags(rows, i + 1, st1, price, now, failing);
      StepKeepsLaterRows(rows, i, st, price, now, failing);
      FlaggedFrame(rows, i + 1, st, st1, price, now, failing);
      assert rows[i] in rows;
      var head := if Commits(rows[i], st, now, failing) && !RowCatchUp(rows[i], st, price, now).ok
                  then [rows[i].inst.externalId] else [];
      assert st1.toDeactivate == st.toDeactivate + head;
      assert Flagged(rows, i, st, price, now, failing) == head + Flagged(rows, i + 1, st, price, now, failing);
      AppendAssociative(st.toDeactivate, head, Flagged(rows, i + 1, st, price, now, failing));
    }
  }

  /** With no instance or user shared between rows, the session gains exactly the
      committed rows' events, in row order, each row billed from the starting state. */
  lemma {:induction false} SweepEvents(rows: seq<Row>, i: nat, st: SweepState, price: Row -> Tariff, now: int,
                                       failing: set<int>)
    requires i <= |rows| && Covering(rows, st)
    requires forall j, k :: 0 <= j < k < |rows| ==> rows[j].inst != rows[k].inst && rows[j].user != rows[k].user
    ensures Sweep(rows, i, st, price, now, failing).added == st.added + Added(rows, i, st, price, now, failing)
    decreases |rows| - i
  {
    if i < |rows| {
      var st1 := SweepStep(rows[i], st, price, now, failing);
      SweepEvents(rows, i + 1, st1, price, now, failing);
      StepKeepsLaterRows(rows, i, st, price, now, failing);
      AddedFrame(rows, i + 1, st, st1, price, now, failing);
      assert rows[i] in rows;
      var head := if Commits(rows[i], st, now, failing) then RowCatchUp(rows[i], st, price, now).events else [];
      assert st1.added == st.added + head;
      assert Added(rows, i, st, price, now, failing) == head + Added(rows, i + 1, st, price, now, failing);
      AppendAssociative(st.added, head, Added(rows, i + 1, st, price, now, failing));
    }
  }

  /** When no two rows share an instance or a user, every committed row ends exactly as its
      own catch-up from the state the sweep started in, and every other row keeps its
      entries. */
  lemma {:induction false} SweepIndependentRows(rows: seq<Row>, i: nat, st: SweepState, price: Row -> Tariff,
                                                now: int, failing: set<int>)
    requires i <= |rows| && Covering(rows, st)
    requires forall j, k :: 0 <= j < k < |rows| ==> rows[j].inst != rows[k].inst && rows[j].user != rows[k].user
    ensures var f := Sweep(rows, i, st, price, now, failing);
            forall j :: i <= j < |rows| ==>
              assert rows[j] in rows;
              if Commits(rows[j], st, now, failing) then
                && f.schedules[rows[j].inst] == RowCatchUp(rows[j], st, price, now).ledger.schedule
                && f.balances[rows[j].user] == RowCatchUp(rows[j], st, price, now).ledger.balance
              else
                && f.schedules[rows[j].inst] == st.schedules[rows[j].inst]
                && f.balances[rows[j].user] == st.balances[rows[j].user]
    decreases |rows| - i
  {
    if i < |rows| {
      var st1 := SweepStep(rows[i], st, price, now, failing);
      var f := Sweep(rows, i, st, price, now, failing);
      SweepIndependentRows(rows, i + 1, st1, price, now, failing);
      StepKeepsLaterRows(rows, i, st, price, now, failing);
      assert rows[i] in rows;
      SweepKeeps(rows, i + 1, st1, price, now, failing, rows[i].inst);
      SweepKeepsBalance(rows, i + 1, st1, price, now, failing, rows[i].user);
      forall j | i < j < |rows|
        ensures rows[j] in rows && Commits(rows[j], st1, now, failing) == Commits(rows[j], st, now, failing)
        ensures rows[j] in rows && LedgerAt(st1, rows[j]) == LedgerAt(st, rows[j])
      {
        assert rows[j] in rows;
      }
    }
  }
}
