/** The fault path: swapin_readahead posts the faulting page on the sync queue of the CPU it
    captured with preemption off, prefetches from whichever CPU it runs on next, and drains
    the captured CPU's sync queue before it returns (code/kernel/kernel.patch). */
module FaultPath {
  import opened Wrappers
  import opened Addressing
  import opened QueueTable
  import opened PageStore
  import opened Accounting
  import opened Coherence
  import opened Refinement

  /** The fault's own load went to the sync queue of the CPU that the fault will drain. */
  predicate Wired(s: State, f: Fault) {
    f.own.Some? ==>
      && f.stage != Entered && f.own.value < |s.ops|
      && f.page == Some(s.ops[f.own.value].page)
      && s.ops[f.own.value].kind == Load
      && s.ops[f.own.value].queue == QueueIndex(s.numcpus, f.cpu, ReadSync)
  }

  ghost predicate AllWired(s: State) {
    forall f | 0 <= f < |s.faults| :: Wired(s, s.faults[f])
  }

  /** Until the fault returns, the page its load delivered stays up to date and unlocked. */
  predicate Delivered(s: State, f: Fault) {
    f.own.Some? && f.own.value < |s.ops| && f.stage != Left && UnlockDone(s.ops[f.own.value]) ==>
      && s.ops[f.own.value].page < |s.pages|
      && s.pages[s.ops[f.own.value].page].uptodate
      && !s.pages[s.ops[f.own.value].page].locked
  }

  ghost predicate AllDelivered(s: State) {
    forall f | 0 <= f < |s.faults| :: Delivered(s, s.faults[f])
  }

  lemma StepKeepsWiring(s: State, a: Action)
    requires Shape(s) && AllWired(s) && Enabled(s, a)
    ensures AllWired(Apply(s, a))
  {
    var t := Apply(s, a);
    assert t.numcpus == s.numcpus;
    assert forall i | 0 <= i < |s.ops| ::
      t.ops[i].kind == s.ops[i].kind && t.ops[i].queue == s.ops[i].queue && t.ops[i].page == s.ops[i].page;
    forall f | 0 <= f < |t.faults| ensures Wired(t, t.faults[f]) {
      if f < |s.faults| { assert Wired(s, s.faults[f]); }
    }
  }

  /** A step of load or store i does not take away the page that fault f's load has delivered. */
  lemma AdvanceKeepsOne(init: seq<Contents>, s: State, i: nat, step: Step, f: nat)
    requires Coherent(init, s) && i < |s.ops| && f < |s.faults|
    requires Wired(s, s.faults[f]) && Delivered(s, s.faults[f])
    requires StepEnabled(s.ops[i], step, s.pending[s.ops[i].queue])
    ensures Delivered(AdvanceOp(s, i, step), s.faults[f])
  {
    var op := s.ops[i];
    StepActivity(op, step, s.pending[op.queue]);
    if Active(op) {
      assert PageRight(op, s.pages[op.page], s.remote[op.slot]);
    }
  }

  lemma AdvanceKeepsDelivery(init: seq<Contents>, s: State, i: nat, step: Step)
    requires Coherent(init, s) && AllDelivered(s) && AllWired(s) && i < |s.ops|
    requires StepEnabled(s.ops[i], step, s.pending[s.ops[i].queue])
    ensures AllDelivered(AdvanceOp(s, i, step))
  {
    forall f | 0 <= f < |s.faults| ensures Delivered(AdvanceOp(s, i, step), s.faults[f]) {
      AdvanceKeepsOne(init, s, i, step, f);
    }
  }

  lemma StepKeepsDelivery(init: seq<Contents>, s: State, a: Action)
    requires Coherent(init, s) && AllDelivered(s) && AllWired(s)
    requires Enabled(s, a) && Disciplined(s, a)
    ensures AllDelivered(Apply(s, a))
  {
    var t := Apply(s, a);
    if a.Advance? {
      AdvanceKeepsDelivery(init, s, a.i, a.step);
    } else {
      assert forall i | 0 <= i < |s.ops| :: t.ops[i] == s.ops[i];
      forall f | 0 <= f < |t.faults| ensures Delivered(t, t.faults[f]) {
        if f < |s.faults| {
          assert Delivered(s, s.faults[f]) && Wired(s, s.faults[f]);
          if a.AllocLocked? && t.faults[f].own.Some? && t.faults[f].stage != Left {
            assert Holds(s, f, s.ops[s.faults[f].own.value].page);
          }
        }
      }
    }
  }

  lemma {:induction false} EveryRunDelivers(s0: State, acts: seq<Action>)
    requires IsDisciplinedRun(s0, acts)
    ensures AllWired(Exec(s0, acts).value) && AllDelivered(Exec(s0, acts).value)
  {
    if acts != [] {
      var before := acts[..|acts| - 1];
      PrefixIsDisciplinedRun(s0, acts);
      EveryRunDelivers(s0, before);
      EveryRunCoherent(s0, before);
      StepKeepsWiring(Exec(s0, before).value, acts[|acts| - 1]);
      StepKeepsDelivery(s0.remote, Exec(s0, before).value, acts[|acts| - 1]);
    }
  }

  /** A fault whose captured sync queue is empty has its page. */
  lemma OwnLoadReady(s: State, f: nat, own: nat)
    requires Accounted(s) && AllWired(s) && AllDelivered(s)
    requires f < |s.faults| && s.faults[f].own == Some(own) && MayContinue(s, s.faults[f])
    requires s.pending[QueueIndex(s.numcpus, s.faults[f].cpu, ReadSync)] <= 0
    ensures Retired(s.ops[own])
    ensures s.pages[s.ops[own].page].uptodate && !s.pages[s.ops[own].page].locked
  {
    assert Wired(s, s.faults[f]) && Delivered(s, s.faults[f]);
    NothingPending(s, own);
    assert Consistent(s.ops[own]);
  }

  /** If swapin_readahead itself issued the read of the faulting page, then on return that page
      is up to date and unlocked, whatever CPUs the thread moved to in between: the load has
      retired, and the log holds its delivery. */
  lemma OwnFaultReturnsReadyPage(s0: State, acts: seq<Action>, f: nat)
    requires IsDisciplinedRun(s0, acts + [FaultReturn(f)])
    requires f < |Exec(s0, acts + [FaultReturn(f)]).value.faults|
    requires Exec(s0, acts + [FaultReturn(f)]).value.faults[f].own.Some?
    ensures var s := Exec(s0, acts + [FaultReturn(f)]).value;
      var own := s.faults[f].own.value;
      && own < |s.ops| && Retired(s.ops[own])
      && s.faults[f].page == Some(s.ops[own].page) && s.ops[own].page < |s.pages|
      && s.pages[s.ops[own].page].uptodate && !s.pages[s.ops[own].page].locked
      && exists k :: 0 <= k < |s.log| && s.log[k].op == own && s.log[k].Loaded?
  {
    var all := acts + [FaultReturn(f)];
    assert all[..|all| - 1] == acts;
    PrefixIsDisciplinedRun(s0, all);
    ExecAppend(s0, acts, FaultReturn(f));
    var s := Exec(s0, acts).value;
    EveryRunDelivers(s0, acts);
    EveryRunAccounted(s0, acts);
    EveryRunLogged(s0, acts);
    var own := s.faults[f].own.value;
    OwnLoadReady(s, f, own);
    assert Wired(s, s.faults[f]);
    assert Observed(s.ops[own]);
    var k :| 0 <= k < |s.log| && s.log[k].op == own;
    assert Describes(s.log[k], s.ops[own]);
  }

  /** One load under way for page 0, issued by a fault on CPU 0. */
  ghost predicate OneLoadUnderWay(s: State) {
    && Shape(s) && s.numcpus == 2
    && |s.ops| == 1 && s.ops[0].pc == Checking && s.ops[0].kind == Load
    && (forall q | 0 <= q < |s.pending| :: s.pending[q] == 0)
    && |s.pages| >= 1 && s.pages[0].locked && !s.pages[0].uptodate
  }

  lemma OtherCpuReads(s0: State) returns (acts: seq<Action>)
    requires Init(s0) && s0.numcpus == 2 && |s0.pages| >= 1 && |s0.remote| >= 1
    ensures IsDisciplinedRun(s0, acts)
    ensures OneLoadUnderWay(Exec(s0, acts).value) && |Exec(s0, acts).value.faults| == 1
  {
    acts := [];
    DisciplinedExtend(s0, acts, AllocLocked(0));
    acts := acts + [AllocLocked(0)];
    DisciplinedExtend(s0, acts, FaultEnter(0));
    acts := acts + [FaultEnter(0)];
    DisciplinedExtend(s0, acts, FaultIssue(0, 0, 0));
    acts := acts + [FaultIssue(0, 0, 0)];
  }

  /** The drain of the fault's captured queue does not wait for this load: it sits on another
      queue and is under way, or it is not counted in pending yet. */
  predicate Missed(op: Op, drained: nat) {
    (op.queue != drained && !UnlockDone(op)) || op.pc in {Checking, Passed, Mapped}
  }

  /** A load whose queue reads as empty is over, unless it had not been counted. */
  lemma DrainedOrUncounted(s: State, i: nat, q: nat)
    requires Accounted(s) && i < |s.ops| && s.ops[i].kind == Load && q < |s.pending| && s.pending[q] <= 0
    ensures Active(s.ops[i]) <==> Missed(s.ops[i], q)
  {
    assert Consistent(s.ops[i]);
    if s.ops[i].queue == q { NothingPending(s, i); }
  }

  /** Exactly when a fault returns its page before a load of it is over, whoever issued the load:
      if that load is on another queue than the captured CPU's sync queue, or not yet counted
      there. The page is then locked. A load the fault issued itself is never among them. */
  lemma FaultReturnsUnreadyIff(s0: State, acts: seq<Action>, f: nat, i: nat)
    requires IsDisciplinedRun(s0, acts + [FaultReturn(f)])
    requires var s := Exec(s0, acts + [FaultReturn(f)]).value;
      && f < |s.faults| && i < |s.ops|
      && s.ops[i].kind == Load && s.faults[f].page == Some(s.ops[i].page)
    ensures var s := Exec(s0, acts + [FaultReturn(f)]).value;
      && (Active(s.ops[i]) <==> Missed(s.ops[i], QueueIndex(s.numcpus, s.faults[f].cpu, ReadSync)))
      && (Active(s.ops[i]) ==> s.faults[f].own != Some(i))
      && (Active(s.ops[i]) ==> s.ops[i].page < |s.pages| && s.pages[s.ops[i].page].locked)
  {
    var all := acts + [FaultReturn(f)];
    assert all[..|all| - 1] == acts;
    PrefixIsDisciplinedRun(s0, all);
    ExecAppend(s0, acts, FaultReturn(f));
    var s := Exec(s0, acts).value;
    EveryRunCoherent(s0, acts);
    EveryRunDelivers(s0, acts);
    QueueIndexIsBijection(s.numcpus);
    DrainedOrUncounted(s, i, QueueIndex(s.numcpus, s.faults[f].cpu, ReadSync));
    if s.faults[f].own == Some(i) { OwnLoadReady(s, f, i); }
    if Active(s.ops[i]) { assert PageRight(s.ops[i], s.pages[s.ops[i].page], s.remote[s.ops[i].slot]); }
  }

  /** It does happen: a fault that found its page in the swap cache, under read by another CPU,
      drains only its own CPU's queue and returns a page still locked. */
  lemma CachedFaultMayReturnLockedPage(s0: State) returns (acts: seq<Action>)
    requires Init(s0) && s0.numcpus == 2 && |s0.pages| >= 1 && |s0.remote| >= 1
    ensures IsDisciplinedRun(s0, acts)
    ensures var s := Exec(s0, acts).value;
      && |s.faults| == 2 && s.faults[1].stage == Left && s.faults[1].own == None
      && s.faults[1].page == Some(0) && OneLoadUnderWay(s)
  {
    acts := OtherCpuReads(s0);
    DisciplinedExtend(s0, acts, FaultEnter(1));
    acts := acts + [FaultEnter(1)];
    DisciplinedExtend(s0, acts, FaultHit(1, 0));
    acts := acts + [FaultHit(1, 0)];
    DisciplinedExtend(s0, acts, FaultReturn(1));
    acts := acts + [FaultReturn(1)];
  }
}
