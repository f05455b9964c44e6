/** tasks/kb.py: the periodic scan for knowledge entries still being processed, and the
    poll that settles one of them from the knowledge service's answer. */
module KbTasks {
  import opened Optional
  import opened Enums

  /** A `knowledge_entries` row (the fields the poll reads or writes); times in seconds. */
  datatype KnowledgeEntry = KnowledgeEntry(kbId: int, externalEntryId: Option<string>,
                                           executionId: Option<string>, status: KbEntryStatus,
                                           createdAt: int)

  /** The answer of `kb_status`: a status string and the ids of the stored entities. */
  datatype KbReply = KbReply(status: string, entityIds: seq<string>)

  /** What one poll does to its entry. */
  datatype PollAction = Skip | DeleteTimedOut | MarkDone(externalEntryId: string) | DeleteFailed

  /** The entry is still in progress and has a (non-empty) execution id to ask about. */
  predicate Pollable(e: KnowledgeEntry)
  {
    e.status == InProgress && e.executionId.Some? && e.executionId.value != ""
  }

  /** The entry to poll and the external id of its instance, when the entry is pollable
      and both its knowledge base and that base's instance exist. */
  function Target(entries: map<int, KnowledgeEntry>, bases: map<int, int>, instances: map<int, string>,
                  entryId: int): (r: Option<(KnowledgeEntry, string)>)
    ensures r.Some? <==> && entryId in entries && Pollable(entries[entryId])
                         && entries[entryId].kbId in bases && bases[entries[entryId].kbId] in instances
    ensures r.Some? ==> r.value.0 == entries[entryId] && r.value.1 == instances[bases[entries[entryId].kbId]]
  {
    if entryId !in entries || !Pollable(entries[entryId]) then None
    else
      var e := entries[entryId];
      if e.kbId !in bases || bases[e.kbId] !in instances then None
      else Some((e, instances[bases[e.kbId]]))
  }

  /** The entry is older than the timeout (strictly). */
  predicate TimedOut(e: KnowledgeEntry, now: int, timeout: int)
  {
    now - e.createdAt > timeout
  }

  /** `_poll`'s decision. The knowledge service is the function `kbStatus`, from the
      instance's external id and the execution id to its answer; it is consulted only for
      a pollable entry that has not timed out. */
  function Decide(entries: map<int, KnowledgeEntry>, bases: map<int, int>, instances: map<int, string>,
                  entryId: int, now: int, timeout: int, kbStatus: (string, string) -> KbReply): (a: PollAction)
    // missing, not in progress, no execution id, no knowledge base or no instance: nothing
    ensures Target(entries, bases, instances, entryId).None? ==> a == Skip
    ensures a != Skip ==> entryId in entries && Pollable(entries[entryId])
    ensures a.DeleteTimedOut? <==> Target(entries, bases, instances, entryId).Some?
                                    && TimedOut(entries[entryId], now, timeout)
    ensures a.MarkDone? || a.DeleteFailed? ==>
              var (e, inst) := Target(entries, bases, instances, entryId).value;
              var reply := kbStatus(inst, e.executionId.value);
              && !TimedOut(e, now, timeout)
              && (a.MarkDone? ==> reply.status == "done" && reply.entityIds != [] && a.externalEntryId == reply.entityIds[0])
              && (a.DeleteFailed? <==> reply.status == "unknown" || reply.status == "failed")
    ensures a == Skip && Target(entries, bases, instances, entryId).Some? ==>
              var (e, inst) := Target(entries, bases, instances, entryId).value;
              var reply := kbStatus(inst, e.executionId.value);
              && !TimedOut(e, now, timeout)
              && !(reply.status == "done" && reply.entityIds != [])
              && reply.status != "unknown" && reply.status != "failed"
  {
    match Target(entries, bases, instances, entryId)
    case None => Skip
    case Some((e, inst)) =>
      if TimedOut(e, now, timeout) then DeleteTimedOut
      else
        var reply := kbStatus(inst, e.executionId.value);
        if reply.status == "done" && reply.entityIds != [] then MarkDone(reply.entityIds[0])
        else if reply.status in {"unknown", "failed"} then DeleteFailed
        else Skip
  }

  /** The entries after the action. */
  function Apply(entries: map<int, KnowledgeEntry>, entryId: int, a: PollAction): map<int, KnowledgeEntry>
  {
    match a
    case Skip => entries
    case DeleteTimedOut => entries - {entryId}
    case DeleteFailed => entries - {entryId}
    case MarkDone(x) =>
      if entryId in entries
      then entries[entryId := entries[entryId].(externalEntryId := Some(x), executionId := None, status := Done)]
      else entries
  }

  /** A poll touches only its own entry, and leaves it deleted, done (with an external id
      and no execution id) or as it was; only a pollable entry can change. */
  lemma PollOutcome(entries: map<int, KnowledgeEntry>, bases: map<int, int>, instances: map<int, string>,
                    entryId: int, now: int, timeout: int, kbStatus: (string, string) -> KbReply)
    ensures var r := Apply(entries, entryId, Decide(entries, bases, instances, entryId, now, timeout, kbStatus));
            && (forall id :: id != entryId ==> (id in r <==> id in entries))
            && (forall id :: id != entryId && id in r ==> r[id] == entries[id])
            && (entryId in r ==> entryId in entries)
            && (entryId in r && r[entryId] != entries[entryId] ==>
                  && Pollable(entries[entryId])
                  && r[entryId].status == Done && r[entryId].executionId == None
                  && r[entryId].externalEntryId.Some?
                  && r[entryId].kbId == entries[entryId].kbId
                  && r[entryId].createdAt == entries[entryId].createdAt)
            && (entryId !in r && entryId in entries ==> Pollable(entries[entryId]))
  {
  }

  /** A timed-out entry is deleted whatever the knowledge service would have answered. */
  lemma TimeoutIgnoresReply(entries: map<int, KnowledgeEntry>, bases: map<int, int>, instances: map<int, string>,
                            entryId: int, now: int, timeout: int,
                            f: (string, string) -> KbReply, g: (string, string) -> KbReply)
    requires Target(entries, bases, instances, entryId).Some?
    requires TimedOut(entries[entryId], now, timeout)
    ensures Decide(entries, bases, instances, entryId, now, timeout, f) == DeleteTimedOut
    ensures Decide(entries, bases, instances, entryId, now, timeout, f)
            == Decide(entries, bases, instances, entryId, now, timeout, g)
  {
  }

  /** Polling again after a poll that acted does nothing: the entry is gone or no longer
      in progress. */
  lemma SecondPollSkips(entries: map<int, KnowledgeEntry>, bases: map<int, int>, instances: map<int, string>,
                        entryId: int, now: int, now2: int, timeout: int,
                        f: (string, string) -> KbReply, g: (string, string) -> KbReply)
    requires Decide(entries, bases, instances, entryId, now, timeout, f) != Skip
    ensures var r := Apply(entries, entryId, Decide(entries, bases, instances, entryId, now, timeout, f));
            Decide(r, bases, instances, entryId, now2, timeout, g) == Skip
  {
  }

  /** A non-empty set has an element to pick. */
  lemma HasElement(s: set<int>)
    requires s != {}
    ensures exists x :: x in s
  {
    if forall y :: y !in s {
      assert false;
    }
  }

  /** The store the tasks work on: the entries, the knowledge bases (each naming the id of
      its instance) and the instances' external ids. */
  class KnowledgeStore {
    var entries: map<int, KnowledgeEntry>
    var bases: map<int, int>
    var instances: map<int, string>

    constructor (entries: map<int, KnowledgeEntry>, bases: map<int, int>, instances: map<int, string>)
      ensures this.entries == entries && this.bases == bases && this.instances == instances
    {
      this.entries := entries;
      this.bases := bases;
      this.instances := instances;
    }

    /** `_scan`: one poll is queued for every in-progress entry, each exactly once, in the
        (unspecified) order the query returns them. */
    method Scan() returns (queued: seq<int>)
      ensures forall id :: id in queued <==> id in entries && entries[id].status == InProgress
      ensures forall i, j :: 0 <= i < j < |queued| ==> queued[i] != queued[j]
    {
      var ids := set id | id in entries && entries[id].status == InProgress;
      queued := [];
      var pending := ids;
      while pending != {}
        invariant pending <= ids
        invariant forall id :: id in queued <==> id in ids && id !in pending
        invariant forall i, j :: 0 <= i < j < |queued| ==> queued[i] != queued[j]
        decreases |pending|
      {
        HasElement(pending);
        var eid :| eid in pending;
        queued := queued + [eid];
        pending := pending - {eid};
      }
    }

    /** `_poll` for one entry id. */
    method Poll(entryId: int, now: int, timeout: int, kbStatus: (string, string) -> KbReply)
      returns (action: PollAction)
      modifies this`entries
      ensures action == Decide(old(entries), bases, instances, entryId, now, timeout, kbStatus)
      ensures entries == Apply(old(entries), entryId, action)
    {
      action := Skip;
      if entryId !in entries {
        return;
      }
      var entry := entries[entryId];
      if entry.status != InProgress || entry.executionId.None? || entry.executionId.value == "" {
        return;
      }
      if entry.kbId !in bases || bases[entry.kbId] !in instances {
        return;
      }
      var inst := instances[bases[entry.kbId]];

      if now - entry.createdAt > timeout {
        entries := entries - {entryId};
        return DeleteTimedOut;
      }

      var reply := kbStatus(inst, entry.executionId.value);
      if reply.status == "done" && reply.entityIds != [] {
        entries := entries[entryId := entry.(externalEntryId := Some(reply.entityIds[0]),
                                             executionId := None, status := Done)];
        action := MarkDone(reply.entityIds[0]);
      } else if reply.status in {"unknown", "failed"} {
        entries := entries - {entryId};
        action := DeleteFailed;
      }
    }
  }
}
