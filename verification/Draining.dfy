/** When can a queue be drained? Exactly when none of its posts was refused: pending is
    incremented before ib_post_send and not taken back (code/drivers/fastswap_rdma.c). */
module Draining {
  import opened Wrappers
  import opened PageStore
  import opened Accounting

  /** Steps of the NIC, of callbacks, and posts that are accepted; no new calls. */
  predicate Finishing(a: Action) {
    a.Advance? && a.step in {PostOk, Execute, Unmap, SetUptodate, Unlock, Dec}
  }

  ghost predicate FinishRun(s: State, acts: seq<Action>, t: State) {
    Exec(s, acts) == Some(t) && forall k | 0 <= k < |acts| :: Finishing(acts[k])
  }

  /** The step that takes a request in flight towards its decrement. */
  function NextStep(op: Op): Step {
    match op.phase
    case Posted => Execute
    case Executed => Unmap
    case Unmapped => if op.kind == Store then Dec else SetUptodate
    case Uptodated => Unlock
    case Unlocked => Dec
    case _ => PostOk
  }

  function Remaining(op: Op): nat {
    match op.phase
    case Posted => 5
    case Executed => 4
    case Unmapped => 3
    case Uptodated => 2
    case Unlocked => 1
    case _ => 6
  }

  lemma NextStepWorks(op: Op, pending: int)
    requires Consistent(op) && InFlight(op)
    ensures StepEnabled(op, NextStep(op), pending) && Finishing(Advance(0, NextStep(op)))
    ensures var op' := StepOp(op, NextStep(op));
      && op'.queue == op.queue && op'.phase != Refused && op.phase != Refused
      && (InFlight(op') <==> NextStep(op) != Dec)
      && (InFlight(op') ==> Remaining(op') < Remaining(op))
  {
  }

  /** One more step of a request in flight, on top of a finishing run. */
  lemma FinishStep(s: State, acts: seq<Action>, t: State, i: nat) returns (u: State)
    requires FinishRun(s, acts, t) && Accounted(t) && i < |t.ops| && InFlight(t.ops[i])
    ensures var step, q := NextStep(t.ops[i]), t.ops[i].queue;
      && FinishRun(s, acts + [Advance(i, step)], u) && Accounted(u) && u.numcpus == t.numcpus
      && Count(u.ops, InFlightOn(q)) == Count(t.ops, InFlightOn(q)) - (if step == Dec then 1 else 0)
      && Count(u.ops, RefusedOn(q)) == Count(t.ops, RefusedOn(q))
      && i < |u.ops| && u.ops[i].queue == q
      && (step != Dec ==> InFlight(u.ops[i]) && Remaining(u.ops[i]) < Remaining(t.ops[i]))
  {
    var step := NextStep(t.ops[i]);
    NextStepWorks(t.ops[i], t.pending[t.ops[i].queue]);
    ExecExtend(s, acts, Advance(i, step));
    NextStepCounts(t, i);
    u := AdvanceOp(t, i, step);
  }

  /** One request in flight can be driven to its decrement. */
  lemma FinishOne(s: State, acts: seq<Action>, t: State, i: nat) returns (more: seq<Action>, u: State)
    requires FinishRun(s, acts, t) && Accounted(t) && i < |t.ops| && InFlight(t.ops[i])
    ensures FinishRun(s, more, u) && Accounted(u) && u.numcpus == t.numcpus
    ensures Count(u.ops, InFlightOn(t.ops[i].queue)) == Count(t.ops, InFlightOn(t.ops[i].queue)) - 1
    ensures Count(u.ops, RefusedOn(t.ops[i].queue)) == Count(t.ops, RefusedOn(t.ops[i].queue))
    decreases Remaining(t.ops[i])
  {
    var step := NextStep(t.ops[i]);
    u := FinishStep(s, acts, t, i);
    more := acts + [Advance(i, step)];
    if step != Dec {
      more, u := FinishOne(s, more, u, i);
    }
  }

  lemma NextStepCounts(t: State, i: nat)
    requires Accounted(t) && i < |t.ops| && InFlight(t.ops[i])
    ensures var step, q := NextStep(t.ops[i]), t.ops[i].queue;
      var u := AdvanceOp(t, i, step);
      && Accounted(u)
      && Count(u.ops, InFlightOn(q)) == Count(t.ops, InFlightOn(q)) - (if step == Dec then 1 else 0)
      && Count(u.ops, RefusedOn(q)) == Count(t.ops, RefusedOn(q))
  {
    var op, q := t.ops[i], t.ops[i].queue;
    var step := NextStep(op);
    NextStepWorks(op, t.pending[q]);
    AdvanceKeepsAccounts(t, i, step);
    CountUpdate(t.ops, i, StepOp(op, step), InFlightOn(q));
    CountUpdate(t.ops, i, StepOp(op, step), RefusedOn(q));
  }

  lemma {:induction false} InFlightExists(ops: seq<Op>, q: nat) returns (i: nat)
    requires Count(ops, InFlightOn(q)) > 0
    ensures i < |ops| && ops[i].queue == q && InFlight(ops[i])
  {
    var n := |ops| - 1;
    if InFlightOn(q)(ops[n]) {
      i := n;
    } else {
      i := InFlightExists(ops[..n], q);
    }
  }

  lemma CanDrain(s: State, q: nat) returns (acts: seq<Action>, t: State)
    requires Accounted(s) && q < |s.pending| && Count(s.ops, RefusedOn(q)) == 0
    ensures FinishRun(s, acts, t) && Accounted(t) && q < |t.pending| && t.pending[q] == 0
  {
    acts, t := [], s;
    while Count(t.ops, InFlightOn(q)) > 0
      invariant FinishRun(s, acts, t) && Accounted(t) && t.numcpus == s.numcpus
      invariant Count(t.ops, RefusedOn(q)) == 0
      decreases Count(t.ops, InFlightOn(q))
    {
      var i := InFlightExists(t.ops, q);
      acts, t := FinishOne(s, acts, t, i);
    }
  }

  lemma {:induction false} RefusedStays(s: State, acts: seq<Action>, i: nat)
    requires Accounted(s) && Exec(s, acts).Some? && i < |s.ops| && s.ops[i].phase == Refused
    ensures var t := Exec(s, acts).value;
      && Accounted(t) && t.numcpus == s.numcpus && i < |t.ops|
      && t.ops[i].phase == Refused && t.ops[i].queue == s.ops[i].queue
  {
    if acts != [] {
      var before, a := acts[..|acts| - 1], acts[|acts| - 1];
      RefusedStays(s, before, i);
      var t := Exec(s, before).value;
      StepKeepsAccounts(t, a);
      assert Consistent(t.ops[i]);
    }
  }

  lemma {:induction false} RefusedExists(ops: seq<Op>, q: nat) returns (i: nat)
    requires Count(ops, RefusedOn(q)) > 0
    ensures i < |ops| && ops[i].queue == q && ops[i].phase == Refused
  {
    var n := |ops| - 1;
    if RefusedOn(q)(ops[n]) {
      i := n;
    } else {
      i := RefusedExists(ops[..n], q);
    }
  }

  /** Some continuation, of whatever actions, empties the queue. */
  ghost predicate Drainable(s: State, q: nat) {
    exists more, t :: Exec(s, more) == Some(t) && q < |t.pending| && t.pending[q] <= 0
  }

  lemma RefusedBlocks(s: State, q: nat, more: seq<Action>, t: State)
    requires Accounted(s) && Count(s.ops, RefusedOn(q)) > 0 && Exec(s, more) == Some(t) && q < |t.pending|
    ensures t.pending[q] >= 1
  {
    var i := RefusedExists(s.ops, q);
    RefusedStays(s, more, i);
    CountWitness(t.ops, i, RefusedOn(q));
  }

  /** From every reachable state: some continuation empties the queue if and only if no post on
      it was refused so far. After a refused post drain_queue never sees zero again. */
  lemma DrainableIffNothingRefused(s0: State, acts: seq<Action>, q: nat)
    requires IsRun(s0, acts) && q < |Exec(s0, acts).value.pending|
    ensures Count(Exec(s0, acts).value.ops, RefusedOn(q)) == 0 <==> Drainable(Exec(s0, acts).value, q)
  {
    var s := Exec(s0, acts).value;
    EveryRunAccounted(s0, acts);
    if Count(s.ops, RefusedOn(q)) == 0 {
      var more, t := CanDrain(s, q);
      assert Exec(s, more) == Some(t) && t.pending[q] <= 0;
    } else {
      forall more, t | Exec(s, more) == Some(t) && q < |t.pending| ensures t.pending[q] >= 1 {
        RefusedBlocks(s, q, more, t);
      }
    }
  }

  // ----- the loops of one queue that nobody else uses, with a NIC that keeps making progress

  /** A queue between its producer and the NIC. stall bounds how many polls in a row may still
      find nothing before something completes; every completion renews it arbitrarily. */
  class RdmaQueue {
    const kind: Kind
    var pending: int
    var inNic: nat
    var refused: nat
    var retired: nat
    var stall: nat

    constructor (kind: Kind)
      ensures Valid() && this.kind == kind && pending == 0 && refused == 0 && retired == 0
    {
      this.kind := kind;
      pending, inNic, refused, retired := 0, 0, 0, 0;
      var patience: nat :| patience >= 0;
      stall := patience;
    }

    ghost predicate Valid()
      reads this
    {
      pending == inNic + refused
    }

    /** sswap_rdma_post_rdma: counted first, and still counted if the post is refused. */
    method PostRdma(accepted: bool)
      requires Valid()
      modifies this`pending, this`inNic, this`refused
      ensures Valid() && pending == old(pending) + 1
      ensures refused == old(refused) + (if accepted then 0 else 1)
    {
      pending := pending + 1;
      if accepted { inNic := inNic + 1; } else { refused := refused + 1; }
    }

    /** ib_process_cq_direct: some n callbacks run, each decrementing pending. */
    method ProcessCqDirect() returns (n: nat)
      requires Valid()
      modifies this`pending, this`inNic, this`retired, this`stall
      ensures Valid() && refused == old(refused)
      ensures pending == old(pending) - n && retired == old(retired) + n
      ensures n == 0 && old(inNic) > 0 ==> stall < old(stall)
    {
      var patience: nat :| patience >= 0;
      n :| 0 <= n <= inNic;
      if n == 0 && inNic > 0 && stall == 0 { n := 1; }
      stall := if n == 0 && stall > 0 then stall - 1 else patience;
      inNic, pending, retired := inNic - n, pending - n, retired + n;
    }

    /** poll_target: stops once it counted target completions or the queue is empty, and what it
        returns is exactly how many requests completed meanwhile. Refused posts keep the queue
        from ever being empty; then the loop ends only if the NIC holds enough requests. */
    method PollTarget(target: nat) returns (completed: nat)
      requires Valid() && (refused == 0 || target <= inNic)
      modifies this`pending, this`inNic, this`retired, this`stall
      ensures Valid() && refused == old(refused)
      ensures completed >= target || pending == 0
      ensures retired == old(retired) + completed && pending == old(pending) - completed
    {
      completed := 0;
      while completed < target && pending > 0
        invariant Valid() && refused == old(refused)
        invariant retired == old(retired) + completed && pending == old(pending) - completed
        decreases pending, stall
      {
        var n := ProcessCqDirect();
        completed := completed + n;
      }
    }

    /** drain_queue: ends, with every request retired. */
    method DrainQueue()
      requires Valid() && refused == 0
      modifies this`pending, this`inNic, this`retired, this`stall
      ensures Valid() && refused == 0 && pending == 0 && retired == old(retired) + old(pending)
    {
      while pending > 0
        invariant Valid() && refused == 0 && retired + pending == old(retired) + old(pending)
        decreases pending, stall
      {
        var _ := ProcessCqDirect();
      }
    }

    /** write_queue_add and begin_read with a single producer: below the limit nothing is waited
        for; at the limit the back-pressure loop ends after a batch of 2048 completed writes or 8
        completed reads, its BUG_ON holds, and the new request fits in the send queue. After
        refused posts a full queue ends the loop only if the NIC holds a whole batch. */
    method Add(accepted: bool)
      requires Valid() && pending <= Limit(kind)
      requires refused == 0 || pending < Limit(kind) || (if kind == Store then 2048 else 8) <= inNic
      modifies this
      ensures Valid() && pending + retired == old(pending + retired) + 1
      ensures old(pending) < (if kind == Store then 4088 else 4096) ==> retired == old(retired)
      ensures old(pending) == (if kind == Store then 4088 else 4096) ==>
        retired >= old(retired) + if kind == Store then 2048 else 8
      ensures 0 < pending <= Limit(kind) <= QP_MAX_SEND_WR
      ensures refused == old(refused) + (if accepted then 0 else 1)
    {
      var batch := if kind == Store then 2048 else 8;
      while pending >= Limit(kind)
        invariant Valid() && refused == old(refused) && pending <= Limit(kind)
        invariant refused == 0 || pending < Limit(kind) || batch <= inNic
        invariant pending + retired == old(pending + retired)
        invariant pending == old(pending) || retired >= old(retired) + batch
        invariant old(pending) < Limit(kind) ==> pending == old(pending)
        decreases pending, stall
      {
        assert pending <= QP_MAX_SEND_WR;
        var _ := PollTarget(batch);
      }
      PostRdma(accepted);
    }
  }
}
