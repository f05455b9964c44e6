/** services/health_poller.py: turning the health endpoint's answer into a status, and
    recording a status change on the instance. */
module HealthPoller {
  import opened Optional
  import opened Enums
  import opened Models

  /** The lower-case form of one character (ASCII letters only). */
  function LowerChar(c: char): (d: char)
    ensures 'A' <= c <= 'Z' ==> 'a' <= d <= 'z' && d as int - c as int == 'a' as int - 'A' as int
    ensures !('A' <= c <= 'Z') ==> d == c
    ensures !('A' <= d <= 'Z')
  {
    if 'A' <= c <= 'Z' then (c as int - 'A' as int + 'a' as int) as char else c
  }

  /** `str.lower()` over ASCII. */
  function Lower(s: string): (r: string)
    ensures |r| == |s|
    ensures forall k :: 0 <= k < |s| ==> r[k] == LowerChar(s[k])
  {
    if s == [] then [] else [LowerChar(s[0])] + Lower(s[1..])
  }

  /** Lowering twice is lowering once. */
  lemma LowerIdempotent(s: string)
    ensures Lower(Lower(s)) == Lower(s)
  {
    var r := Lower(s);
    assert forall k :: 0 <= k < |r| ==> LowerChar(r[k]) == r[k];
  }

  /** A string that is already lower case (such as every status value) lowers to itself. */
  lemma LowerOfStatusValue(st: Status)
    ensures Lower(StatusValue(st)) == StatusValue(st)
  {
    var v := StatusValue(st);
    assert forall k :: 0 <= k < |v| ==> !('A' <= v[k] <= 'Z');
  }

  /** `_normalize_status`: `None` reads as the empty string, the input is lowered, and a
      member name or value gives that member (the names and values coincide); anything else
      gives `Unknown`. Total: no input raises. */
  function NormalizeStatus(raw: Option<string>): (st: Status)
    ensures raw.Some? ==> st == Unknown || StatusValue(st) == Lower(raw.value)
    ensures raw.Some? && Lower(raw.value) in StatusValues ==> StatusValue(st) == Lower(raw.value)
    ensures raw.None? ==> st == Unknown
  {
    var s := if raw.Some? then raw.value else "";
    ParseStatus(Lower(s))
  }

  /** Upper, lower or mixed case: inputs that lower to the same string give the same
      status; in particular a status value in any case reads as that status. */
  lemma NormalizeIgnoresCase(a: string, b: string, st: Status)
    requires Lower(a) == Lower(b)
    ensures NormalizeStatus(Some(a)) == NormalizeStatus(Some(b))
    ensures Lower(a) == StatusValue(st) ==> NormalizeStatus(Some(a)) == st
  {
  }

  /** `"Active"` reads as `Active`; a blank-padded value is not recognised. */
  lemma NormalizeExamples()
    ensures NormalizeStatus(Some("Active")) == Active
    ensures NormalizeStatus(Some(" active")) == Unknown
    ensures NormalizeStatus(None) == NormalizeStatus(Some("")) == Unknown
  {
    var r := Lower("Active");
    assert r[0] == 'a' && r[1] == 'c' && r[2] == 't' && r[3] == 'i' && r[4] == 'v' && r[5] == 'e';
    assert r == "active";
    var u := Lower(" active");
    assert u[0] == ' ';
  }

  /** The events `_handle_instance` adds when an instance in `current` is reported in
      `next`: none when nothing changes, else one from the previous value to the new one. */
  function TransitionEvents(id: int, current: Status, next: Status): (r: seq<PendingEvent>)
    ensures |r| <= 1
    ensures r == [] <==> current == next
    ensures forall e :: e in r ==>
              && e.instanceId == id && e.fromStatus == Some(StatusValue(current))
              && e.toStatus == StatusValue(next)
              && ParseStatus(e.fromStatus.value) == current && ParseStatus(e.toStatus) == next
  {
    StatusValueRoundTrip(current);
    StatusValueRoundTrip(next);
    if current == next then [] else [PendingEvent(id, Some(StatusValue(current)), StatusValue(next))]
  }

  /** Reporting the same status twice records one event: the second report finds the
      instance already in that status. */
  lemma TransitionIdempotent(id: int, current: Status, next: Status)
    ensures TransitionEvents(id, current, next) + TransitionEvents(id, next, next)
            == TransitionEvents(id, current, next)
  {
  }

  /** `_handle_instance`. */
  method HandleInstance(session: Session, inst: Instance, newStatus: Status)
    modifies session, inst`status
    ensures inst.status == newStatus
    ensures session.added == old(session.added) + TransitionEvents(inst.id, old(inst.status), newStatus)
  {
    if inst.status == newStatus {
      return;
    }
    var prev := StatusValue(inst.status);
    inst.status := newStatus;
    session.added := session.added + [PendingEvent(inst.id, Some(prev), StatusValue(newStatus))];
  }

  /** What the health endpoint gave: a (possibly missing) status string, or an error. */
  datatype HealthReply = Reported(raw: Option<string>) | CheckFailed

  /** The status `check` moves an instance to: a failed check means `Unknown`. */
  function ReportedStatus(reply: HealthReply): (st: Status)
    ensures reply.CheckFailed? ==> st == Unknown
    ensures reply.Reported? ==> st == NormalizeStatus(reply.raw)
  {
    match reply
    case Reported(raw) => NormalizeStatus(raw)
    case CheckFailed => Unknown
  }

  /** `check` inside `poll_once`, for one instance. */
  method Check(session: Session, inst: Instance, reply: HealthReply)
    modifies session, inst`status
    ensures inst.status == ReportedStatus(reply)
    ensures session.added == old(session.added) + TransitionEvents(inst.id, old(inst.status), ReportedStatus(reply))
  {
    match reply {
      case Reported(raw) =>
        var ns := NormalizeStatus(raw);
        HandleInstance(session, inst, ns);
      case CheckFailed =>
        HandleInstance(session, inst, Unknown);
    }
  }
}
