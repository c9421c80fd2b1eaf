/** The RDMA backend refines the DRAM backend: when clients follow the kernel's rules for
    pages and swap slots, every page a load delivers holds what the last completed store to
    that slot put there, whatever the interleaving and the order in which the NIC works. */
module Coherence {
  import opened Wrappers
  import opened Addressing
  import opened PageStore
  import opened Accounting

  // ----- the specification: a map from slots to contents, used one operation at a time

  function DramAfter(dram: seq<Contents>, e: Event): (r: seq<Contents>)
    ensures |r| == |dram|
  {
    if e.Stored? && e.slot < |dram| then dram[e.slot := e.data] else dram
  }

  /** The DRAM contents after the observed operations, run one after the other. */
  function Replay(init: seq<Contents>, log: seq<Event>): (r: seq<Contents>)
    ensures |r| == |init|
  {
    if log == [] then init else DramAfter(Replay(init, log[..|log| - 1]), log[|log| - 1])
  }

  /** The DRAM backend could have produced this log: each load delivers what it holds. */
  predicate DramAccepts(init: seq<Contents>, log: seq<Event>) {
    log == [] ||
    var before, e := log[..|log| - 1], log[|log| - 1];
    && DramAccepts(init, before)
    && e.slot < |init|
    && (e.Loaded? ==> e.data == Replay(init, before)[e.slot])
  }

  // ----- what the kernel promises the store

  /** The operation still owns its page and slot. */
  predicate Active(op: Op) {
    if op.kind == Store then op.pc != Returned else !UnlockDone(op)
  }

  predicate PageIdle(s: State, page: nat) {
    forall i | 0 <= i < |s.ops| && Active(s.ops[i]) :: s.ops[i].page != page
  }

  predicate SlotIdle(s: State, slot: nat) {
    forall i | 0 <= i < |s.ops| && Active(s.ops[i]) :: s.ops[i].slot != slot
  }

  predicate SlotHasNoStore(s: State, slot: nat) {
    forall i | 0 <= i < |s.ops| && Active(s.ops[i]) && s.ops[i].kind == Store :: s.ops[i].slot != slot
  }

  /** A swapin_readahead that has not returned holds a reference to the page it read. */
  predicate PageHeld(s: State, page: nat) {
    exists f :: 0 <= f < |s.faults| && Holds(s, f, page)
  }

  predicate Holds(s: State, f: nat, page: nat)
    requires f < |s.faults|
  {
    && s.faults[f].stage != Left && s.faults[f].own.Some?
    && s.faults[f].own.value < |s.ops| && s.ops[s.faults[f].own.value].page == page
  }

  predicate MayLoad(s: State, page: nat, slot: nat) {
    PageIdle(s, page) && SlotHasNoStore(s, slot)
  }

  /** Clients leave a page alone while an operation owns it, operations on one slot overlap
      only if both are loads, posts are accepted and completions succeed. */
  predicate Disciplined(s: State, a: Action) {
    match a
    case CpuWrite(page, _) => PageIdle(s, page)
    case AllocLocked(page) => PageIdle(s, page) && !PageHeld(s, page)
    case StartStore(_, page, slot) => PageIdle(s, page) && SlotIdle(s, slot)
    case StartLoad(_, _, page, slot) => MayLoad(s, page, slot)
    case Advance(_, step) => step != PostRefused && step != ExecuteError
    case FaultIssue(_, page, slot) => MayLoad(s, page, slot)
    case FaultPrefetch(_, _, page, slot) => MayLoad(s, page, slot)
    case _ => true
  }

  ghost predicate IsDisciplinedRun(s0: State, acts: seq<Action>) {
    IsRun(s0, acts) &&
    forall k | 0 <= k < |acts| ::
      Exec(s0, acts[..k]).Some? && Disciplined(Exec(s0, acts[..k]).value, acts[k])
  }

  // ----- the invariant

  predicate StoreLanded(op: Op) {
    op.kind == Store && op.pc != Returned && op.phase in {Executed, Unmapped, Decremented, Freed}
  }

  predicate LoadFilled(op: Op) {
    op.kind == Load && op.phase in {Executed, Unmapped, Uptodated}
  }

  ghost predicate Exclusive(s: State) {
    forall i, j | 0 <= i < j < |s.ops| && Active(s.ops[i]) && Active(s.ops[j]) ::
      && s.ops[i].page != s.ops[j].page
      && (s.ops[i].slot == s.ops[j].slot ==> s.ops[i].kind == Load && s.ops[j].kind == Load)
  }

  predicate PageRight(op: Op, page: Page, slotContents: Contents) {
    if op.kind == Load then
      && page.locked && (page.uptodate <==> op.phase == Uptodated)
      && (LoadFilled(op) ==> page.contents == slotContents)
    else
      && page.contents == op.data
      && (StoreLanded(op) ==> slotContents == op.data)
  }

  ghost predicate PagesRight(s: State)
    requires Shape(s)
  {
    forall i | 0 <= i < |s.ops| && Active(s.ops[i]) ::
      PageRight(s.ops[i], s.pages[s.ops[i].page], s.remote[s.ops[i].slot])
  }

  /** No store has landed on the slot without having returned. */
  ghost predicate Settled(s: State, slot: nat) {
    forall i | 0 <= i < |s.ops| && StoreLanded(s.ops[i]) :: s.ops[i].slot != slot
  }

  ghost predicate Tracks(init: seq<Contents>, s: State) {
    && |init| == |s.remote|
    && DramAccepts(init, s.log)
    && forall slot | 0 <= slot < |s.remote| && Settled(s, slot) ::
         Replay(init, s.log)[slot] == s.remote[slot]
  }

  ghost predicate Coherent(init: seq<Contents>, s: State) {
    Accounted(s) && Exclusive(s) && PagesRight(s) && Tracks(init, s)
  }

  // ----- preservation

  lemma StepActivity(op: Op, step: Step, pending: int)
    requires Consistent(op) && StepEnabled(op, step, pending)
    ensures Active(StepOp(op, step)) ==> Active(op)
    ensures step in {Execute, SetUptodate, Unlock} ==> Active(op)
    ensures step !in {Execute, SetUptodate, Unlock} ==>
      forall page, c :: StepPage(page, op, step, c) == page
    ensures step != Execute ==> forall page, c :: StepSlot(c, op, step, page) == c
  {
  }

  lemma AdvanceKeepsExclusive(s: State, i: nat, step: Step)
    requires Accounted(s) && Exclusive(s) && i < |s.ops|
    requires StepEnabled(s.ops[i], step, s.pending[s.ops[i].queue])
    ensures Exclusive(AdvanceOp(s, i, step))
  {
    StepActivity(s.ops[i], step, s.pending[s.ops[i].queue]);
  }

  lemma StepKeepsPageRight(op: Op, step: Step, pending: int, page: Page, c: Contents)
    requires Consistent(op) && StepEnabled(op, step, pending) && step != ExecuteError && step != PostRefused
    requires Active(op) && Active(StepOp(op, step)) && PageRight(op, page, c)
    ensures PageRight(StepOp(op, step), StepPage(page, op, step, c), StepSlot(c, op, step, page))
  {
  }

  lemma AdvanceKeepsPages(s: State, i: nat, step: Step)
    requires Accounted(s) && Exclusive(s) && PagesRight(s) && i < |s.ops|
    requires StepEnabled(s.ops[i], step, s.pending[s.ops[i].queue])
    requires step != ExecuteError && step != PostRefused
    ensures Shape(AdvanceOp(s, i, step)) && PagesRight(AdvanceOp(s, i, step))
  {
    var t, op, pending := AdvanceOp(s, i, step), s.ops[i], s.pending[s.ops[i].queue];
    AdvanceKeepsShape(s, i, step);
    StepActivity(op, step, pending);
    forall j | 0 <= j < |t.ops| && Active(t.ops[j])
      ensures PageRight(t.ops[j], t.pages[t.ops[j].page], t.remote[t.ops[j].slot])
    {
      if j == i {
        StepKeepsPageRight(op, step, pending, s.pages[op.page], s.remote[op.slot]);
      } else {
        OthersUntouched(s, i, step, j);
      }
    }
  }

  /** A step of one operation leaves the page of every other active operation alone, and its
      slot too. */
  lemma OthersUntouched(s: State, i: nat, step: Step, j: nat)
    requires Accounted(s) && Exclusive(s) && i < |s.ops| && j < |s.ops| && i != j && Active(s.ops[j])
    requires StepEnabled(s.ops[i], step, s.pending[s.ops[i].queue])
    ensures AdvanceOp(s, i, step).pages[s.ops[j].page] == s.pages[s.ops[j].page]
    ensures AdvanceOp(s, i, step).remote[s.ops[j].slot] == s.remote[s.ops[j].slot]
  {
    StepActivity(s.ops[i], step, s.pending[s.ops[i].queue]);
    if Active(s.ops[i]) {
      assert s.ops[i].page != s.ops[j].page;
      assert s.ops[i].slot == s.ops[j].slot ==> s.ops[i].kind == Load;
    }
  }

  lemma SettledBefore(s: State, i: nat, step: Step, slot: nat)
    requires Shape(s) && i < |s.ops| && Settled(AdvanceOp(s, i, step), slot)
    requires slot != s.ops[i].slot || !StoreLanded(s.ops[i])
    ensures Settled(s, slot)
  {
    forall j | 0 <= j < |s.ops| && StoreLanded(s.ops[j]) ensures s.ops[j].slot != slot {
      if j != i { assert AdvanceOp(s, i, step).ops[j] == s.ops[j]; }
    }
  }

  lemma StepLanding(op: Op, step: Step, pending: int)
    requires Consistent(op) && StepEnabled(op, step, pending) && step != ExecuteError
    ensures step != ReturnStore && StoreLanded(op) ==> StoreLanded(StepOp(op, step))
    ensures step == Execute && op.kind == Store ==> StoreLanded(StepOp(op, step))
    ensures step == ReturnStore && !InFlight(op) && op.phase != Refused ==> StoreLanded(op)
  {
  }

  /** The DRAM specification takes the step's observation and still agrees with far memory. */
  lemma AdvanceKeepsTracking(init: seq<Contents>, s: State, i: nat, step: Step)
    requires Coherent(init, s) && i < |s.ops|
    requires StepEnabled(s.ops[i], step, s.pending[s.ops[i].queue])
    requires step != ExecuteError && step != PostRefused
    ensures Tracks(init, AdvanceOp(s, i, step))
  {
    var t, op := AdvanceOp(s, i, step), s.ops[i];
    StepLanding(op, step, s.pending[op.queue]);
    AdvanceKeepsAcceptance(init, s, i, step);
    forall slot | 0 <= slot < |t.remote| && Settled(t, slot)
      ensures Replay(init, t.log)[slot] == t.remote[slot]
    {
      assert t.ops[i] == StepOp(op, step);
      if step == ReturnStore {
        ReturnKeepsSlot(init, s, i, slot);
      } else {
        SettledBefore(s, i, step, slot);
      }
    }
  }

  lemma ReturnKeepsSlot(init: seq<Contents>, s: State, i: nat, slot: nat)
    requires Coherent(init, s) && i < |s.ops| && slot < |s.remote|
    requires StepEnabled(s.ops[i], ReturnStore, s.pending[s.ops[i].queue])
    requires Settled(AdvanceOp(s, i, ReturnStore), slot)
    ensures Replay(init, AdvanceOp(s, i, ReturnStore).log)[slot] == AdvanceOp(s, i, ReturnStore).remote[slot]
  {
    var t, op := AdvanceOp(s, i, ReturnStore), s.ops[i];
    AcceptStore(init, s.log, i, op.slot, op.data);
    if slot == op.slot {
      NothingPending(s, i);
      StepLanding(op, ReturnStore, s.pending[op.queue]);
      assert PageRight(op, s.pages[op.page], s.remote[op.slot]);
    } else {
      SettledBefore(s, i, ReturnStore, slot);
    }
  }

  lemma AdvanceKeepsAcceptance(init: seq<Contents>, s: State, i: nat, step: Step)
    requires Coherent(init, s) && i < |s.ops|
    requires StepEnabled(s.ops[i], step, s.pending[s.ops[i].queue])
    ensures DramAccepts(init, AdvanceOp(s, i, step).log)
    ensures step != ReturnStore ==> Replay(init, AdvanceOp(s, i, step).log) == Replay(init, s.log)
  {
    var op := s.ops[i];
    var page := s.pages[op.page];
    if step == Unlock {
      LoadSlotSettled(s, i);
      assert PageRight(op, page, s.remote[op.slot]);
      AcceptLoad(init, s.log, i, op.slot, page.contents);
    } else if step == ReturnStore {
      AcceptStore(init, s.log, i, op.slot, op.data);
    } else {
      assert StepLog(i, op, step, page) == [];
      assert AdvanceOp(s, i, step).log == s.log;
    }
  }

  lemma AcceptLoad(init: seq<Contents>, log: seq<Event>, i: nat, slot: nat, data: Contents)
    requires DramAccepts(init, log) && slot < |init| && Replay(init, log)[slot] == data
    ensures DramAccepts(init, log + [Loaded(i, slot, data)])
    ensures Replay(init, log + [Loaded(i, slot, data)]) == Replay(init, log)
  {
    assert (log + [Loaded(i, slot, data)])[..|log|] == log;
  }

  lemma AcceptStore(init: seq<Contents>, log: seq<Event>, i: nat, slot: nat, data: Contents)
    requires DramAccepts(init, log) && slot < |init|
    ensures DramAccepts(init, log + [Stored(i, slot, data)])
    ensures Replay(init, log + [Stored(i, slot, data)]) == Replay(init, log)[slot := data]
  {
    assert (log + [Stored(i, slot, data)])[..|log|] == log;
  }

  lemma LoadSlotSettled(s: State, i: nat)
    requires Exclusive(s) && i < |s.ops| && Active(s.ops[i]) && s.ops[i].kind == Load
    ensures Settled(s, s.ops[i].slot)
  {
    forall j | 0 <= j < |s.ops| && StoreLanded(s.ops[j]) ensures s.ops[j].slot != s.ops[i].slot {
      if j < i { assert Active(s.ops[j]); }
    }
  }

  lemma NewOpKeepsCoherence(init: seq<Contents>, s: State, t: State, op: Op)
    requires Coherent(init, s) && Accounted(t) && t.ops == s.ops + [op]
    requires t.pages == s.pages && t.remote == s.remote && t.log == s.log
    requires op == NewOp(op.kind, op.queue, op.page, op.slot, op.data)
    requires op.page < |s.pages| && PageIdle(s, op.page)
    requires if op.kind == Load then
        SlotHasNoStore(s, op.slot) && s.pages[op.page].locked && !s.pages[op.page].uptodate
      else SlotIdle(s, op.slot) && op.data == s.pages[op.page].contents
    ensures Coherent(init, t)
  {
    forall slot | 0 <= slot < |t.remote| && Settled(t, slot)
      ensures Replay(init, t.log)[slot] == t.remote[slot]
    {
      assert Settled(s, slot) by {
        forall j | 0 <= j < |s.ops| && StoreLanded(s.ops[j]) ensures s.ops[j].slot != slot {
          assert t.ops[j] == s.ops[j];
        }
      }
    }
  }

  lemma PageStepKeepsCoherence(init: seq<Contents>, s: State, page: nat, p: Page)
    requires Coherent(init, s) && page < |s.pages| && PageIdle(s, page)
    ensures Coherent(init, s.(pages := s.pages[page := p]))
  {
    var t := s.(pages := s.pages[page := p]);
    assert Shape(t);
    forall slot | 0 <= slot < |t.remote| && Settled(t, slot)
      ensures Replay(init, t.log)[slot] == t.remote[slot]
    {
      assert Settled(s, slot);
    }
  }

  lemma FaultStepKeepsCoherence(init: seq<Contents>, s: State, t: State)
    requires Coherent(init, s) && Accounted(t) && t == s.(faults := t.faults)
    ensures Coherent(init, t)
  {
    forall slot | 0 <= slot < |t.remote| && Settled(t, slot)
      ensures Replay(init, t.log)[slot] == t.remote[slot]
    {
      assert Settled(s, slot);
    }
  }

  lemma StepKeepsCoherence(init: seq<Contents>, s: State, a: Action)
    requires Coherent(init, s) && Enabled(s, a) && Disciplined(s, a)
    ensures Coherent(init, Apply(s, a))
  {
    var t := Apply(s, a);
    StepKeepsAccounts(s, a);
    match a
    case CpuWrite(page, data) => PageStepKeepsCoherence(init, s, page, t.pages[page]);
    case AllocLocked(page) => PageStepKeepsCoherence(init, s, page, t.pages[page]);
    case StartStore(_, _, _) => NewOpKeepsCoherence(init, s, t, t.ops[|s.ops|]);
    case StartLoad(_, _, _, _) => NewOpKeepsCoherence(init, s, t, t.ops[|s.ops|]);
    case Advance(i, step) =>
      AdvanceKeepsExclusive(s, i, step);
      AdvanceKeepsPages(s, i, step);
      AdvanceKeepsTracking(init, s, i, step);
    case FaultIssue(_, _, _) => NewOpKeepsCoherence(init, s, t, t.ops[|s.ops|]);
    case FaultPrefetch(_, _, _, _) => NewOpKeepsCoherence(init, s, t, t.ops[|s.ops|]);
    case FaultEnter(_) => FaultStepKeepsCoherence(init, s, t);
    case FaultHit(_, _) => FaultStepKeepsCoherence(init, s, t);
    case FaultReturn(_) => FaultStepKeepsCoherence(init, s, t);
  }

  lemma PrefixIsDisciplinedRun(s0: State, acts: seq<Action>)
    requires IsDisciplinedRun(s0, acts) && acts != []
    ensures IsDisciplinedRun(s0, acts[..|acts| - 1])
  {
    var before := acts[..|acts| - 1];
    forall k | 0 <= k < |before|
      ensures Exec(s0, before[..k]).Some? && Disciplined(Exec(s0, before[..k]).value, before[k])
    {
      assert before[..k] == acts[..k];
    }
  }

  lemma DisciplinedExtend(s0: State, acts: seq<Action>, a: Action)
    requires IsDisciplinedRun(s0, acts) && Shape(Exec(s0, acts).value)
    requires Enabled(Exec(s0, acts).value, a) && Disciplined(Exec(s0, acts).value, a)
    ensures IsDisciplinedRun(s0, acts + [a])
    ensures Exec(s0, acts + [a]).value == Apply(Exec(s0, acts).value, a)
    ensures Shape(Exec(s0, acts + [a]).value)
  {
    ExecExtend(s0, acts, a);
    forall k | 0 <= k < |acts + [a]|
      ensures Exec(s0, (acts + [a])[..k]).Some?
      ensures Disciplined(Exec(s0, (acts + [a])[..k]).value, (acts + [a])[k])
    {
      assert (acts + [a])[..k] == acts[..k];
      if k == |acts| { assert acts[..k] == acts; }
    }
  }

  lemma {:induction false} EveryRunCoherent(s0: State, acts: seq<Action>)
    requires IsDisciplinedRun(s0, acts)
    ensures Coherent(s0.remote, Exec(s0, acts).value)
  {
    if acts != [] {
      var before := acts[..|acts| - 1];
      PrefixIsDisciplinedRun(s0, acts);
      EveryRunCoherent(s0, before);
      StepKeepsCoherence(s0.remote, Exec(s0, before).value, acts[|acts| - 1]);
    }
  }
}
