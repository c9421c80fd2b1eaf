/** What every run keeps about the pending counters and about each request's life, whatever
    the clients do and however posts and completions turn out. */
module Accounting {
  import opened Wrappers
  import opened QueueTable
  import opened PageStore

  // ----- counting ops

  function Count(ops: seq<Op>, p: Op -> bool): nat {
    if ops == [] then 0
    else Count(ops[..|ops| - 1], p) + if p(ops[|ops| - 1]) then 1 else 0
  }

  lemma CountAppend(ops: seq<Op>, op: Op, p: Op -> bool)
    ensures Count(ops + [op], p) == Count(ops, p) + if p(op) then 1 else 0
  {
    assert (ops + [op])[..|ops|] == ops;
  }

  lemma {:induction false} CountUpdate(ops: seq<Op>, i: nat, op: Op, p: Op -> bool)
    requires i < |ops|
    ensures Count(ops[i := op], p) ==
      Count(ops, p) - (if p(ops[i]) then 1 else 0) + (if p(op) then 1 else 0)
  {
    var n := |ops| - 1;
    if i < n {
      CountUpdate(ops[..n], i, op, p);
      assert ops[i := op][..n] == ops[..n][i := op];
    } else {
      assert ops[i := op][..n] == ops[..n];
    }
  }

  lemma {:induction false} CountMonotone(ops: seq<Op>, p: Op -> bool, r: Op -> bool)
    requires forall i | 0 <= i < |ops| :: p(ops[i]) ==> r(ops[i])
    ensures Count(ops, p) <= Count(ops, r)
  {
    if ops != [] {
      CountMonotone(ops[..|ops| - 1], p, r);
    }
  }

  lemma {:induction false} CountWitness(ops: seq<Op>, i: nat, p: Op -> bool)
    requires i < |ops| && p(ops[i])
    ensures Count(ops, p) >= 1
  {
    if i < |ops| - 1 {
      CountWitness(ops[..|ops| - 1], i, p);
    }
  }

  // ----- what pending counts

  /** pending was incremented for this request and its callback has not decremented it yet. */
  predicate InFlight(op: Op) {
    || op.pc == Counted
    || op.phase in {Posted, Executed, Unmapped, Uptodated, Unlocked}
  }

  ghost function InFlightOn(q: nat): Op -> bool {
    (op: Op) => op.queue == q && InFlight(op)
  }

  ghost function RefusedOn(q: nat): Op -> bool {
    (op: Op) => op.queue == q && op.phase == Refused
  }

  ghost function ChargedOn(q: nat): Op -> bool {
    (op: Op) => op.queue == q && (InFlight(op) || op.phase == Refused)
  }

  /** A sswap_rdma_write call on q that has not returned. */
  ghost function StoreCallOn(q: nat): Op -> bool {
    (op: Op) => op.queue == q && op.kind == Store && op.pc != Returned
  }

  // ----- one request's life

  /** The request's completion is over: the callback has at least decremented pending. */
  predicate Retired(op: Op) {
    op.phase == Decremented || op.phase == Freed
  }

  predicate UnmapDone(op: Op) {
    op.phase in {Unmapped, Uptodated, Unlocked, Decremented, Freed}
  }

  predicate UnlockDone(op: Op) {
    op.kind == Load && op.phase in {Unlocked, Decremented, Freed}
  }

  /** How a call and its request can stand to each other. */
  predicate Consistent(op: Op) {
    && (op.phase == NoReq <==> op.pc == Checking || op.pc == Passed)
    && (op.phase == Ready <==> op.pc == Mapped || op.pc == Counted)
    && (op.phase == Refused <==> op.pc == Failed)
    && (op.pc == Draining ==> op.kind == Store)
    && (op.phase == Uptodated || op.phase == Unlocked ==> op.kind == Load)
    && (op.kind == Store && op.pc == Returned ==> Retired(op))
  }

  /** Unmapped once, freed once, and (for a load) its page unlocked once, each exactly when
      the callback gets there. */
  predicate OnceEach(op: Op) {
    && op.unmaps == (if UnmapDone(op) then 1 else 0)
    && op.unlocks == (if UnlockDone(op) then 1 else 0)
    && op.frees == (if op.phase == Freed then 1 else 0)
  }

  ghost predicate PendingExact(s: State) {
    forall q | 0 <= q < |s.pending| ::
      s.pending[q] == Count(s.ops, InFlightOn(q)) + Count(s.ops, RefusedOn(q))
  }

  ghost predicate Accounted(s: State) {
    && Shape(s)
    && PendingExact(s)
    && (forall i | 0 <= i < |s.ops| :: Consistent(s.ops[i]) && OnceEach(s.ops[i]))
  }

  /** When drain_queue sees nothing pending, no request of that queue is outstanding. */
  lemma NothingPending(s: State, i: nat)
    requires Accounted(s) && i < |s.ops| && s.pending[s.ops[i].queue] <= 0
    ensures !InFlight(s.ops[i]) && s.ops[i].phase != Refused
  {
    var q := s.ops[i].queue;
    if InFlight(s.ops[i]) {
      CountWitness(s.ops, i, InFlightOn(q));
    }
    if s.ops[i].phase == Refused {
      CountWitness(s.ops, i, RefusedOn(q));
    }
  }

  lemma StepKeepsLife(op: Op, step: Step, pending: int)
    requires Consistent(op) && OnceEach(op) && StepEnabled(op, step, pending)
    requires step == ReturnStore ==> Retired(op)
    ensures Consistent(StepOp(op, step)) && OnceEach(StepOp(op, step))
    ensures (if InFlight(StepOp(op, step)) then 1 else 0) + (if StepOp(op, step).phase == Refused then 1 else 0)
            == (if InFlight(op) then 1 else 0) + (if op.phase == Refused then 1 else 0) + StepPending(step)
  {
  }

  lemma AdvanceKeepsAccounts(s: State, i: nat, step: Step)
    requires Accounted(s) && i < |s.ops|
    requires StepEnabled(s.ops[i], step, s.pending[s.ops[i].queue])
    ensures Accounted(AdvanceOp(s, i, step))
  {
    var t, op, op' := AdvanceOp(s, i, step), s.ops[i], StepOp(s.ops[i], step);
    AdvanceKeepsShape(s, i, step);
    if step == ReturnStore {
      NothingPending(s, i);
    }
    StepKeepsLife(op, step, s.pending[op.queue]);
    forall q | 0 <= q < |t.pending|
      ensures t.pending[q] == Count(t.ops, InFlightOn(q)) + Count(t.ops, RefusedOn(q))
    {
      CountUpdate(s.ops, i, op', InFlightOn(q));
      CountUpdate(s.ops, i, op', RefusedOn(q));
    }
  }

  lemma NewOpKeepsAccounts(s: State, t: State, op: Op)
    requires Accounted(s) && Shape(t) && t.ops == s.ops + [op] && t.pending == s.pending
    requires op == NewOp(op.kind, op.queue, op.page, op.slot, op.data)
    ensures Accounted(t)
  {
    forall q | 0 <= q < |t.pending|
      ensures t.pending[q] == Count(t.ops, InFlightOn(q)) + Count(t.ops, RefusedOn(q))
    {
      CountAppend(s.ops, op, InFlightOn(q));
      CountAppend(s.ops, op, RefusedOn(q));
    }
  }

  lemma StepKeepsAccounts(s: State, a: Action)
    requires Accounted(s) && Enabled(s, a)
    ensures Accounted(Apply(s, a))
  {
    var t := Apply(s, a);
    ApplyKeepsShape(s, a);
    match a
    case Advance(i, step) => AdvanceKeepsAccounts(s, i, step);
    case StartStore(_, _, _) => NewOpKeepsAccounts(s, t, t.ops[|s.ops|]);
    case StartLoad(_, _, _, _) => NewOpKeepsAccounts(s, t, t.ops[|s.ops|]);
    case FaultIssue(_, _, _) => NewOpKeepsAccounts(s, t, t.ops[|s.ops|]);
    case FaultPrefetch(_, _, _, _) => NewOpKeepsAccounts(s, t, t.ops[|s.ops|]);
    case _ =>
  }

  /** Over every run, including refused posts and failed completions: each queue's pending
      counter is its requests in flight plus its refused posts, each request is unmapped and
      freed at most once and only by its callback, and each load's page is unlocked at most once. */
  lemma {:induction false} EveryRunAccounted(s0: State, acts: seq<Action>)
    requires IsRun(s0, acts)
    ensures Accounted(Exec(s0, acts).value)
  {
    if acts != [] {
      EveryRunAccounted(s0, acts[..|acts| - 1]);
      StepKeepsAccounts(Exec(s0, acts[..|acts| - 1]).value, acts[|acts| - 1]);
    }
  }

  /** A sswap_rdma_write call can return only when its own request has completed, however many
      other writers share the queue. */
  lemma StoreReturnsCompleted(s0: State, acts: seq<Action>, i: nat)
    requires IsRun(s0, acts + [Advance(i, ReturnStore)])
    ensures var s := Exec(s0, acts + [Advance(i, ReturnStore)]).value;
      i < |s.ops| && s.ops[i].pc == Returned && Retired(s.ops[i]) && s.ops[i].unmaps == 1
  {
    ExecAppend(s0, acts, Advance(i, ReturnStore));
    var s := Exec(s0, acts).value;
    EveryRunAccounted(s0, acts);
    NothingPending(s, i);
    assert Consistent(s.ops[i]) && OnceEach(s.ops[i]);
    assert AdvanceOp(s, i, ReturnStore).ops[i] == s.ops[i].(pc := Returned);
  }

  /** In every reachable state a write queue's pending is at most the number of
      sswap_rdma_write calls in progress on it. */
  lemma WritePendingBoundedByCalls(s0: State, acts: seq<Action>, q: nat)
    requires IsRun(s0, acts) && q < 3 * s0.numcpus && QueueType(s0.numcpus, q) == WriteSync
    ensures var s := Exec(s0, acts).value;
      q < |s.pending| && 0 <= s.pending[q] <= Count(s.ops, StoreCallOn(q))
  {
    var s := Exec(s0, acts).value;
    EveryRunAccounted(s0, acts);
    NumCpusFixed(s0, acts);
    SplitCount(s.ops, q);
    CountMonotone(s.ops, ChargedOn(q), StoreCallOn(q));
  }

  lemma {:induction false} NumCpusFixed(s0: State, acts: seq<Action>)
    requires Exec(s0, acts).Some?
    ensures Exec(s0, acts).value.numcpus == s0.numcpus
  {
    if acts != [] {
      NumCpusFixed(s0, acts[..|acts| - 1]);
    }
  }

  lemma {:induction false} SplitCount(ops: seq<Op>, q: nat)
    requires forall i | 0 <= i < |ops| :: Consistent(ops[i])
    ensures Count(ops, InFlightOn(q)) + Count(ops, RefusedOn(q))
         == Count(ops, ChargedOn(q))
  {
    if ops != [] {
      SplitCount(ops[..|ops| - 1], q);
    }
  }
}
