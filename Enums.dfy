/** The status enumerations of app/models/enums.py and the knowledge-entry migration. */
module Enums {
  import opened Optional

  /** Status of a bot instance.
      NOTE: the Python enum `InstanceStatus` declares only `active`, `paused` and
      `not_enough_balance`, yet billing.py, status_stats.py and health_poller.py all fall
      back to `InstanceStatus.unknown`, and migration 003 adds `unknown` (among others) to
      the database type. The model adds `Unknown` as that fallback member; with the enum
      exactly as written, every one of those fallbacks would itself raise. */
  datatype Status = Active | Paused | NotEnoughBalance | Unknown

  /** The string value of a member (in this enum each member's name equals its value). */
  function StatusValue(s: Status): string
  {
    match s
    case Active => "active"
    case Paused => "paused"
    case NotEnoughBalance => "not_enough_balance"
    case Unknown => "unknown"
  }

  /** The four strings a status can be stored as. */
  const StatusValues: set<string> := {"active", "paused", "not_enough_balance", "unknown"}

  /** `InstanceStatus(x)` inside `try: ... except Exception: InstanceStatus.unknown`:
      lookup by value, any string that is no member's value becomes `Unknown`. */
  function ParseStatus(x: string): (s: Status)
    ensures s == Unknown || StatusValue(s) == x
    ensures forall t: Status :: StatusValue(t) == x ==> s == t
  {
    if x == "active" then Active
    else if x == "paused" then Paused
    else if x == "not_enough_balance" then NotEnoughBalance
    else Unknown
  }

  /** Every status is stored as one of `StatusValues`, and reads back as itself. */
  lemma StatusValueRoundTrip(s: Status)
    ensures StatusValue(s) in StatusValues
    ensures ParseStatus(StatusValue(s)) == s
  {
  }

  /** The same lookup with the enum exactly as written, where the fallback member is
      missing: `None` stands for the lookup raising (the handler's own reference to
      `InstanceStatus.unknown` raises again). */
  function ParseStatusAsWritten(x: string): (r: Option<Status>)
    ensures r.Some? <==> x in {"active", "paused", "not_enough_balance"}
    ensures r.Some? ==> r.value != Unknown && StatusValue(r.value) == x
  {
    if x == "active" then Some(Active)
    else if x == "paused" then Some(Paused)
    else if x == "not_enough_balance" then Some(NotEnoughBalance)
    else None
  }

  /** `"inactive"`, a value the health endpoint and the database both use, cannot be read
      as written; with the fallback member it reads as `Unknown`. */
  lemma InactiveRaisesAsWritten()
    ensures ParseStatusAsWritten("inactive").None?
    ensures ParseStatus("inactive") == Unknown
  {
  }

  /** The lookup with the fallback extends the one as written: it agrees wherever that one
      succeeds, and gives `Unknown` exactly where that one raises. */
  lemma ParseStatusExtendsAsWritten(x: string)
    ensures ParseStatusAsWritten(x).Some? ==> ParseStatus(x) == ParseStatusAsWritten(x).value
    ensures ParseStatusAsWritten(x).None? <==> ParseStatus(x) == Unknown
  {
  }

  /** Status of a knowledge entry (the `kb_entry_status` type of migration 006;
      the Python `KBEntryStatus` enum that tasks/kb.py imports is not part of this model). */
  datatype KbEntryStatus = InProgress | Done | Timeout | Failed
}
