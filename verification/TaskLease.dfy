/** At-least-once delivery made harmless: when every attempt ends inside its lease, an event writes a task at most once. */
module TaskLease {
  import opened Text
  import opened Json
  import opened StateMachine
  import opened Records
  import opened Store
  import opened TaskRace
  import CP = ControlPlane
  import WK = Worker

  // ---- the discipline ----

  function Deadline(a: Attempt): int { a.start + WORKER_LEASE }

  predicate WrittenInTime(w: World, now: int, p: nat) {
    p < |w.attempts| && w.attempts[p].at == Wrote ==> now < Deadline(w.attempts[p])
  }

  predicate Worker(a: Action) { a.ReadTask? || a.ReadPrior? || a.StoreCheckpoint? || a.Swap? || a.Complete? }

  /** The clock does not run backwards, attempts act only inside their lease, and one that has written the task
      completes its receipt there instead of crashing. */
  ghost predicate TimelyStep(w: World, s: Step) {
    && w.clock <= s.now
    && (forall p: nat :: WrittenInTime(w, s.now, p))
    && (Worker(s.action) && s.action.p < |w.attempts| ==> s.now < Deadline(w.attempts[s.action.p]))
    && (s.action.Crash? && s.action.p < |w.attempts| ==> w.attempts[s.action.p].at != Wrote)
  }

  ghost predicate Timely(w: World, steps: seq<Step>)
    decreases |steps|
  {
    steps == [] || (Timely(w, steps[..|steps| - 1]) && TimelyStep(Run(w, steps[..|steps| - 1]), steps[|steps| - 1]))
  }

  // ---- the invariant ----

  ghost predicate Authored(w: World, id: string, e: string) {
    exists i :: 0 <= i < |Log(w, id)| && Log(w, id)[i].author == ByEvent(e)
  }

  /** At most one entry of the task's history is by the event. */
  ghost predicate Once(w: World, id: string, e: string) {
    forall i, j :: 0 <= i < j < |Log(w, id)| ==> !(Log(w, id)[i].author == ByEvent(e) && Log(w, id)[j].author == ByEvent(e))
  }

  predicate Same(w: World, p: nat, e: string) { p < |w.attempts| && w.attempts[p].event.eventId == e }

  /** An attempt that may still write. */
  predicate Open(a: Attempt) { a.at.Admitted? || a.at.Loaded? || a.at.Planned? }

  predicate AttemptsApart(w: World, p: nat, q: nat) {
    p < q < |w.attempts| && w.attempts[p].event.eventId == w.attempts[q].event.eventId ==> Deadline(w.attempts[p]) <= w.attempts[q].start
  }

  /** Every attempt has a receipt, which dates from the latest attempt of its event. */
  predicate ReceiptAt(w: World, p: nat) {
    p < |w.attempts| ==> (
      var a := w.attempts[p];
      && a.event.eventId in w.receipts && w.receipts[a.event.eventId].firstSeenAt <= w.clock
      && (a.start == w.receipts[a.event.eventId].firstSeenAt || Deadline(a) <= w.receipts[a.event.eventId].firstSeenAt)
      && (a.at == Wrote ==> w.clock < Deadline(a)))
  }

  /** Once an event has written a task its receipt is complete or about to be. */
  ghost predicate Sealed(w: World, id: string, e: string) {
    Authored(w, id, e) ==>
      e in w.receipts && (w.receipts[e].status == ReceiptStatus.Complete || exists p: nat :: Same(w, p, e) && w.attempts[p].at == Wrote)
  }

  /** And none of its attempts can write again. */
  ghost predicate Spent(w: World, id: string, e: string, p: nat) {
    Authored(w, id, e) && Same(w, p, e) && Open(w.attempts[p]) ==> Deadline(w.attempts[p]) <= w.clock
  }

  ghost predicate Inv(w: World) {
    && (forall p: nat, q: nat :: AttemptsApart(w, p, q)) && (forall p: nat :: ReceiptAt(w, p))
    && (forall id, e :: Once(w, id, e) && Sealed(w, id, e)) && (forall id, e, p: nat :: Spent(w, id, e, p))
  }

  lemma StartInv(w: World)
    requires Start(w)
    ensures Inv(w)
  {
    forall id, e ensures Once(w, id, e) && Sealed(w, id, e) && !Authored(w, id, e) { assert StartsAt(w, id); }
  }

  // ---- steps ----

  /** A step that neither admits nor writes for an event: no attempt opens, and none turns into or out of one that has written. */
  lemma QuietStep(w: World, w': World)
    requires Inv(w) && w.clock <= w'.clock && |w'.attempts| == |w.attempts| && w'.receipts == w.receipts
    requires forall q: nat :: WrittenInTime(w, w'.clock, q)
    requires forall q: nat :: q < |w.attempts| ==> MovesOn(w.attempts[q], w'.attempts[q])
    requires forall id, e :: Authored(w', id, e) ==> Authored(w, id, e)
    requires forall id, e :: Once(w, id, e) ==> Once(w', id, e)
    ensures Inv(w')
  {
    forall q: nat, r: nat ensures AttemptsApart(w', q, r) { assert AttemptsApart(w, q, r); }
    forall q: nat ensures ReceiptAt(w', q) { assert ReceiptAt(w, q) && WrittenInTime(w, w'.clock, q); }
    forall id, e ensures Once(w', id, e) && Sealed(w', id, e) {
      assert Once(w, id, e) && Sealed(w, id, e);
      if Authored(w', id, e) && w.receipts[e].status != ReceiptStatus.Complete {
        var q: nat :| Same(w, q, e) && w.attempts[q].at == Wrote;
        assert Same(w', q, e) && w'.attempts[q].at == Wrote;
      }
    }
    forall id, e, q: nat ensures Spent(w', id, e, q) { assert Spent(w, id, e, q); }
  }

  /** The attempt is the same, and neither starts nor stops being one that has written. */
  predicate MovesOn(a: Attempt, b: Attempt) {
    b == a.(at := b.at) && (b.at == Wrote <==> a.at == Wrote) && (Open(b) ==> Open(a))
  }

  lemma AdmitStep(w: World, e: Envelope, now: int)
    requires Inv(w) && TimelyStep(w, Step(now, Deliver(e)))
    ensures Inv(Next(w, Step(now, Deliver(e))))
  {
    var w', n := Next(w, Step(now, Deliver(e))), |w.attempts|;
    if Reserve(w.receipts, e, now, WORKER_LEASE).1 {
      assert forall id :: !Authored(w, id, e.eventId) by {
        forall id ensures !Authored(w, id, e.eventId) { NotAdmittedAgain(w, e, now, id); }
      }
      forall id, x ensures Authored(w', id, x) == Authored(w, id, x) && Once(w', id, x) { SameLog(w, w', id, x); assert Once(w, id, x); }
      forall q: nat, r: nat ensures AttemptsApart(w', q, r) { assert AttemptsApart(w, q, r) && ReceiptAt(w, q); }
      forall q: nat ensures ReceiptAt(w', q) { assert ReceiptAt(w, q) && WrittenInTime(w, now, q); }
      forall id, x ensures Sealed(w', id, x) {
        assert Sealed(w, id, x);
        if Authored(w', id, x) && w.receipts[x].status != ReceiptStatus.Complete {
          var q: nat :| Same(w, q, x) && w.attempts[q].at == Wrote;
          assert Same(w', q, x) && w'.attempts[q].at == Wrote;
        }
      }
      forall id, x, q: nat ensures Spent(w', id, x, q) { assert Spent(w, id, x, q); }
    } else {
      SameLogs(w, w');
      QuietStep(w, w');
    }
  }

  /** An event that has written is not admitted again. */
  lemma NotAdmittedAgain(w: World, e: Envelope, now: int, id: string)
    requires Inv(w) && (forall p: nat :: WrittenInTime(w, now, p)) && w.clock <= now && Reserve(w.receipts, e, now, WORKER_LEASE).1
    ensures !Authored(w, id, e.eventId)
  {
    assert Sealed(w, id, e.eventId);
    if Authored(w, id, e.eventId) {
      var p: nat :| Same(w, p, e.eventId) && w.attempts[p].at == Wrote;
      assert WrittenInTime(w, now, p) && ReceiptAt(w, p);
    }
  }

  lemma SameLog(w: World, w': World, id: string, e: string)
    requires Log(w', id) == Log(w, id)
    ensures (Authored(w', id, e) <==> Authored(w, id, e)) && (Once(w', id, e) <==> Once(w, id, e))
  {}

  lemma SameLogs(w: World, w': World)
    requires w'.history == w.history
    ensures forall id, e :: (Authored(w', id, e) <==> Authored(w, id, e)) && (Once(w', id, e) <==> Once(w, id, e))
  {
    forall id, e ensures (Authored(w', id, e) <==> Authored(w, id, e)) && (Once(w', id, e) <==> Once(w, id, e)) { SameLog(w, w', id, e); }
  }

  lemma CompleteStep(w: World, p: nat, now: int)
    requires Inv(w) && TimelyStep(w, Step(now, Action.Complete(p))) && p < |w.attempts| && w.attempts[p].at == Wrote
    ensures Inv(Next(w, Step(now, Action.Complete(p))))
  {
    var w', x := Next(w, Step(now, Action.Complete(p))), w.attempts[p].event.eventId;
    SameLogs(w, w');
    assert ReceiptAt(w, p);
    forall q: nat, r: nat ensures AttemptsApart(w', q, r) { assert AttemptsApart(w, q, r); }
    forall q: nat ensures ReceiptAt(w', q) { assert ReceiptAt(w, q) && WrittenInTime(w, now, q); }
    forall id, e ensures Once(w', id, e) && Sealed(w', id, e) {
      assert Once(w, id, e) && Sealed(w, id, e);
      if Authored(w', id, e) && e != x && w.receipts[e].status != ReceiptStatus.Complete {
        var q: nat :| Same(w, q, e) && w.attempts[q].at == Wrote;
        assert Same(w', q, e) && w'.attempts[q].at == Wrote;
      }
    }
    forall id, e, q: nat ensures Spent(w', id, e, q) { assert Spent(w, id, e, q); }
  }

  /** The write of an attempt inside its lease is the first by its event. */
  lemma FirstWrite(w: World, p: nat, now: int, id: string)
    requires Inv(w) && p < |w.attempts| && Open(w.attempts[p]) && w.clock <= now < Deadline(w.attempts[p])
    ensures !Authored(w, id, w.attempts[p].event.eventId)
  {
    assert Spent(w, id, w.attempts[p].event.eventId, p);
  }

  lemma WriteStep(w: World, p: nat, now: int, t: Task)
    requires Inv(w) && TimelyStep(w, Step(now, Swap(p))) && p < |w.attempts| && Open(w.attempts[p])
    ensures Inv(WriteTask(Move(w, p, Wrote), t, ByEvent(w.attempts[p].event.eventId)).(clock := now))
  {
    var x := w.attempts[p].event.eventId;
    var w' := WriteTask(Move(w, p, Wrote), t, ByEvent(x)).(clock := now);
    assert ReceiptAt(w, p);
    forall q: nat, r: nat ensures AttemptsApart(w', q, r) { assert AttemptsApart(w, q, r); }
    forall q: nat ensures ReceiptAt(w', q) { assert ReceiptAt(w, q) && WrittenInTime(w, now, q); }
    forall id, e ensures Once(w', id, e) && (Authored(w', id, e) ==> Authored(w, id, e) || e == x) { OneMore(w, w', id, e, x, p, now); }
    forall id, e ensures Sealed(w', id, e) {
      assert Sealed(w, id, e);
      if Authored(w', id, e) && e == x {
        assert Same(w', p, e) && w'.attempts[p].at == Wrote;
      } else if Authored(w', id, e) && w.receipts[e].status != ReceiptStatus.Complete {
        var q: nat :| Same(w, q, e) && w.attempts[q].at == Wrote;
        assert Same(w', q, e) && w'.attempts[q].at == Wrote;
      }
    }
    forall id, e, q: nat ensures Spent(w', id, e, q) {
      assert Spent(w, id, e, q) && AttemptsApart(w, p, q) && AttemptsApart(w, q, p) && ReceiptAt(w, q);
    }
  }

  lemma OneMore(w: World, w': World, id: string, e: string, x: string, p: nat, now: int)
    requires Inv(w) && p < |w.attempts| && Open(w.attempts[p]) && w.clock <= now < Deadline(w.attempts[p])
    requires x == w.attempts[p].event.eventId
    requires Log(w', id) == Log(w, id)
      || (|Log(w', id)| == |Log(w, id)| + 1 && Log(w, id) <= Log(w', id) && Log(w', id)[|Log(w, id)|].author == ByEvent(x))
    ensures Once(w', id, e) && (Authored(w', id, e) ==> Authored(w, id, e) || e == x)
  {
    assert Once(w, id, e);
    if e == x { FirstWrite(w, p, now, id); }
  }

  /** A write by someone other than an event. */
  lemma OtherWrite(w: World, t: Task, author: Author)
    requires !author.ByEvent?
    ensures forall id, e :: Authored(WriteTask(w, t, author), id, e) ==> Authored(w, id, e)
    ensures forall id, e :: Once(w, id, e) ==> Once(WriteTask(w, t, author), id, e)
  {
    var w' := WriteTask(w, t, author);
    forall id, e ensures (Authored(w', id, e) ==> Authored(w, id, e)) && (Once(w, id, e) ==> Once(w', id, e)) {
      assert Log(w', id) == if id == t.taskId then Log(w, id) + [Entry(t, author)] else Log(w, id);
    }
  }

  /** No task is written, and no attempt opens or writes. */
  ghost predicate Quiet(w: World, w': World) {
    && w'.history == w.history && w'.receipts == w.receipts && |w'.attempts| == |w.attempts|
    && forall q: nat :: q < |w.attempts| ==> MovesOn(w.attempts[q], w'.attempts[q])
  }

  lemma PlanIsQuiet(w: World, p: nat, t: Task, prior: Option<Checkpoint>, ids: WK.FreshIds, now: int)
    requires p < |w.attempts| && Open(w.attempts[p])
    ensures Quiet(w, NextPlan(w, p, t, prior, ids, now))
  {}

  lemma ReadIsQuiet(w: World, p: nat, ids: WK.FreshIds, now: int)
    requires p < |w.attempts| && w.attempts[p].at == Admitted
    ensures Quiet(w, NextReadTask(w, p, ids, now))
  {
    var e := w.attempts[p].event;
    if e.taskId in w.tasks { PlanIsQuiet(w, p, w.tasks[e.taskId], None, ids, now); }
  }

  lemma ReadsAreQuiet(w: World, now: int, a: Action)
    requires a.ReadTask? || a.ReadPrior?
    ensures Quiet(w, Act(w, now, a))
  {
    if a.p < |w.attempts| {
      var attempt := w.attempts[a.p];
      if attempt.at == Admitted {
        ReadIsQuiet(w, a.p, a.ids, now);
      } else if attempt.at.Loaded? {
        PlanIsQuiet(w, a.p, attempt.at.read, Get(w.checkpoints, attempt.at.read.latestCheckpointId), a.ids, now);
      }
    }
  }

  lemma StoreIsQuiet(w: World, p: nat)
    requires p < |w.attempts| && w.attempts[p].at.Planned?
    ensures Quiet(w, NextStore(w, p))
  {}

  lemma OthersAreQuiet(w: World, now: int, a: Action)
    requires a.StoreCheckpoint? || a.ReadToEdit? || (a.Complete? && !(a.p < |w.attempts| && w.attempts[a.p].at == Wrote))
      || (a.Crash? && (a.p < |w.attempts| ==> w.attempts[a.p].at != Wrote))
      || (a.Swap? && !(a.p < |w.attempts| && w.attempts[a.p].at.Planned?))
    ensures Quiet(w, Act(w, now, a))
  {
    if a.StoreCheckpoint? && a.p < |w.attempts| && w.attempts[a.p].at.Planned? { StoreIsQuiet(w, a.p); }
  }

  lemma NextKeepsInv(w: World, s: Step)
    requires Inv(w) && TimelyStep(w, s)
    ensures Inv(Next(w, s))
  {
    var w', a, now := Next(w, s), s.action, s.now;
    if a.Deliver? {
      AdmitStep(w, a.event, now);
    } else if a.Complete? && a.p < |w.attempts| && w.attempts[a.p].at == Wrote {
      CompleteStep(w, a.p, now);
    } else if a.Swap? && a.p < |w.attempts| && w.attempts[a.p].at.Planned? {
      SwapStep(w, a.p, now);
    } else if a.Create? {
      CreateStep(w, a.taskId, a.delegationId, a.policyVersion, now);
    } else if a.WriteEdit? {
      EditStep(w, a.q, now);
    } else {
      if a.ReadTask? || a.ReadPrior? { ReadsAreQuiet(w, now, a); } else { OthersAreQuiet(w, now, a); }
      SameLogs(w, w');
      QuietStep(w, w');
    }
  }

  lemma SwapStep(w: World, p: nat, now: int)
    requires Inv(w) && TimelyStep(w, Step(now, Swap(p))) && p < |w.attempts| && w.attempts[p].at.Planned?
    ensures Inv(Next(w, Step(now, Swap(p))))
  {
    var w', e, at := Next(w, Step(now, Swap(p))), w.attempts[p].event, w.attempts[p].at;
    var r := Mutate(w.tasks, e.taskId, WK.ApplyFinal(at.plan.task), Some(at.read.version)).1;
    if at.stored >= |at.plan.checkpoints| && r.Mutated? {
      WriteStep(w, p, now, r.task);
    } else {
      SameLogs(w, w');
      QuietStep(w, w');
    }
  }

  lemma WriteByOther(w: World, w1: World, w': World, t: Task, author: Author)
    requires Inv(w) && w1.history == w.history && w1.attempts == w.attempts && w1.receipts == w.receipts && !author.ByEvent?
    requires w' == WriteTask(w1, t, author).(clock := w'.clock) && w.clock <= w'.clock
    requires forall q: nat :: WrittenInTime(w, w'.clock, q)
    ensures Inv(w')
  {
    SameLogs(w, w1);
    OtherWrite(w1, t, author);
    SameLogs(WriteTask(w1, t, author), w');
    QuietStep(w, w');
  }

  lemma CreateStep(w: World, id: string, delegationId: string, policyVersion: string, now: int)
    requires Inv(w) && TimelyStep(w, Step(now, Create(id, delegationId, policyVersion)))
    ensures Inv(Next(w, Step(now, Create(id, delegationId, policyVersion))))
  {
    var w' := Next(w, Step(now, Create(id, delegationId, policyVersion)));
    if id in w.tasks {
      SameLogs(w, w');
      QuietStep(w, w');
    } else {
      WriteByOther(w, w, w', CP.NewTask(id, delegationId, policyVersion, now), Initially);
    }
  }

  lemma EditStep(w: World, q: nat, now: int)
    requires Inv(w) && TimelyStep(w, Step(now, WriteEdit(q)))
    ensures Inv(Next(w, Step(now, WriteEdit(q))))
  {
    var w' := Next(w, Step(now, WriteEdit(q)));
    if q < |w.editors| && w.editors[q].pending
       && Mutate(w.tasks, w.editors[q].taskId, (t: Task) => Edited(t, w.editors[q].edit, now), Some(w.editors[q].read.version)).1.Mutated?
    {
      var x := w.editors[q];
      var w1 := w.(editors := w.editors[q := x.(pending := false)]);
      WriteByOther(w, w1, w', Edited(w.tasks[x.taskId], x.edit, now), AuthorOf(x.edit));
    } else {
      SameLogs(w, w');
      QuietStep(w, w');
    }
  }

  lemma {:induction false} RunInv(w: World, steps: seq<Step>)
    requires Inv(w) && Timely(w, steps)
    ensures Inv(Run(w, steps))
    decreases |steps|
  {
    if steps != [] {
      RunInv(w, steps[..|steps| - 1]);
      NextKeepsInv(Run(w, steps[..|steps| - 1]), steps[|steps| - 1]);
    }
  }

  /** Reachable by an interleaving that keeps the discipline. */
  ghost predicate ReachableInTime(w: World) { exists w0, steps :: Start(w0) && Timely(w0, steps) && w == Run(w0, steps) }

  lemma ReachableInv(w: World)
    requires ReachableInTime(w)
    ensures Inv(w)
  {
    var w0, steps :| Start(w0) && Timely(w0, steps) && w == Run(w0, steps);
    StartInv(w0);
    RunInv(w0, steps);
  }

  /** If every attempt ends inside its lease, and each one that wrote the task marks its receipt complete there,
      an event writes a task at most once, however often it is delivered. */
  lemma {:induction false} EventWritesOnce(w: World, id: string, i: nat, j: nat)
    requires ReachableInTime(w) && i < |Log(w, id)| && j < |Log(w, id)|
    requires Log(w, id)[i].author.ByEvent? && Log(w, id)[j].author == Log(w, id)[i].author
    ensures i == j
  {
    ReachableInv(w);
    assert Once(w, id, Log(w, id)[i].author.eventId);
  }
}
