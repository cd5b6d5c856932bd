/** The relay class and the sessions of the protocol machine commit the same rows. */
module SessionRefinement {
  import opened Events
  import opened Outbox
  import opened TransferTables
  import opened Protocol
  import opened RelayWorker

  /** The outcomes a session has stored after dispatching `batch` in order. */
  function StoredBy(rows: Rows, handlers: set<EventType>, batch: seq<EventId>, replies: seq<Reply>)
    : map<EventId, Attempt>
    requires |replies| == |batch| && forall i :: 0 <= i < |batch| ==> batch[i] in rows
  {
    if batch == [] then map[]
    else
      var n := |batch| - 1;
      var earlier := StoredBy(rows, handlers, batch[..n], replies[..n]);
      if rows[batch[n]].event.kind in handlers && replies[n].updateOk
      then earlier[batch[n] := Attempt(replies[n].result, replies[n].at)]
      else earlier
  }

  lemma {:induction false} StoredAreUpdates(rows: Rows, handlers: set<EventType>, batch: seq<EventId>,
                                            replies: seq<Reply>, maxAttempt: nat)
    requires |replies| == |batch| && forall i :: 0 <= i < |batch| ==> batch[i] in rows
    ensures var stored := StoredBy(rows, handlers, batch, replies);
            var u := Updates(rows, handlers, batch, replies, maxAttempt);
            && u.Keys == stored.Keys && stored.Keys <= Members(batch)
            && forall e :: e in stored ==>
                 e in rows && u[e] == DispatchRow(rows[e], rows[e].attemptCount, stored[e].result, stored[e].at,
                                                  maxAttempt)
  {
    if batch != [] {
      var n := |batch| - 1;
      StoredAreUpdates(rows, handlers, batch[..n], replies[..n], maxAttempt);
    }
  }

  /** A session that read the attempt counts of its batch and stored the outcomes of dispatching it in order commits
      exactly the rows of ProcessBatch. */
  lemma CommitIsProcessBatch(t: Tables, ss: Session, handlers: set<EventType>, batch: seq<EventId>, replies: seq<Reply>,
                             maxAttempt: nat)
    requires |replies| == |batch| && forall i :: 0 <= i < |batch| ==> batch[i] in t.outbox
    requires ss.stored == StoredBy(t.outbox, handlers, batch, replies)
    requires forall e :: e in batch ==> e in ss.attempts && ss.attempts[e] == t.outbox[e].attemptCount
    ensures CommittedOutbox(t, ss, maxAttempt) == t.outbox + Updates(t.outbox, handlers, batch, replies, maxAttempt)
  {
    StoredAreUpdates(t.outbox, handlers, batch, replies, maxAttempt);
    var committed := CommittedOutbox(t, ss, maxAttempt);
    var u := Updates(t.outbox, handlers, batch, replies, maxAttempt);
    forall e | e in t.outbox
      ensures committed[e] == (t.outbox + u)[e]
    {
      assert e in u ==> e in ss.stored && e in Members(batch);
    }
    assert (t.outbox + u).Keys == t.outbox.Keys;
  }
}
