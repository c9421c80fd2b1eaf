/** The headline results about the asynchronous page store: its runs are runs of the DRAM
    backend, and nothing a client could observe is missing from the log that says so. */
module Refinement {
  import opened Wrappers
  import opened Addressing
  import opened PageStore
  import opened Accounting
  import opened Coherence

  // ----- the log records every completed operation, once, as it was asked for

  /** The client has seen this operation complete. */
  predicate Observed(op: Op) {
    if op.kind == Store then op.pc == Returned else UnlockDone(op)
  }

  predicate Describes(e: Event, op: Op) {
    && e.slot == op.slot && Observed(op)
    && (if op.kind == Store then e.Stored? && e.data == op.data else e.Loaded?)
  }

  ghost predicate LogSound(s: State) {
    forall k | 0 <= k < |s.log| :: s.log[k].op < |s.ops| && Describes(s.log[k], s.ops[s.log[k].op])
  }

  ghost predicate LogOnce(s: State) {
    forall k, m | 0 <= k < m < |s.log| :: s.log[k].op != s.log[m].op
  }

  ghost predicate LogComplete(s: State) {
    forall i | 0 <= i < |s.ops| && Observed(s.ops[i]) :: exists k :: 0 <= k < |s.log| && s.log[k].op == i
  }

  ghost predicate LogFaithful(s: State) {
    LogSound(s) && LogOnce(s) && LogComplete(s)
  }

  lemma StepObservation(op: Op, step: Step, pending: int)
    requires Consistent(op) && StepEnabled(op, step, pending)
    ensures Observed(op) ==> Observed(StepOp(op, step)) && step != ReturnStore && step != Unlock
    ensures !Observed(op) && Observed(StepOp(op, step)) ==> step == ReturnStore || step == Unlock
    ensures step == ReturnStore ==> op.kind == Store && Observed(StepOp(op, step))
    ensures step == Unlock ==> op.kind == Load && Observed(StepOp(op, step))
  {
  }

  /** Completed operations stay in the log, and one that completes now is added. */
  lemma AdvanceKeepsComplete(s: State, i: nat, step: Step, j: nat)
    requires Accounted(s) && LogComplete(s) && i < |s.ops| && j < |s.ops|
    requires StepEnabled(s.ops[i], step, s.pending[s.ops[i].queue])
    requires Observed(AdvanceOp(s, i, step).ops[j])
    ensures exists k :: 0 <= k < |AdvanceOp(s, i, step).log| && AdvanceOp(s, i, step).log[k].op == j
  {
    var t, op := AdvanceOp(s, i, step), s.ops[i];
    StepObservation(op, step, s.pending[op.queue]);
    if j == i && !Observed(op) {
      assert t.log[|s.log|].op == j;
    } else {
      assert Observed(s.ops[j]);
      var k :| 0 <= k < |s.log| && s.log[k].op == j;
      assert t.log[k].op == j;
    }
  }

  lemma AdvanceKeepsLog(s: State, i: nat, step: Step)
    requires Accounted(s) && LogFaithful(s) && i < |s.ops|
    requires StepEnabled(s.ops[i], step, s.pending[s.ops[i].queue])
    ensures LogFaithful(AdvanceOp(s, i, step))
  {
    var t, op := AdvanceOp(s, i, step), s.ops[i];
    StepObservation(op, step, s.pending[op.queue]);
    assert !Observed(op) ==> forall k | 0 <= k < |s.log| :: s.log[k].op != i;
    forall j | 0 <= j < |t.ops| && Observed(t.ops[j])
      ensures exists k :: 0 <= k < |t.log| && t.log[k].op == j
    {
      AdvanceKeepsComplete(s, i, step, j);
    }
  }

  lemma StepKeepsLog(s: State, a: Action)
    requires Accounted(s) && LogFaithful(s) && Enabled(s, a)
    ensures LogFaithful(Apply(s, a))
  {
    var t := Apply(s, a);
    if a.Advance? {
      AdvanceKeepsLog(s, a.i, a.step);
    } else {
      assert t.log == s.log;
      assert forall i | 0 <= i < |s.ops| :: t.ops[i] == s.ops[i];
      assert forall i | |s.ops| <= i < |t.ops| :: !Observed(t.ops[i]);
    }
  }

  /** In every run each completed operation is in the log exactly once, with the slot it was
      called for and, for a store, the contents its page had when it was called. */
  lemma {:induction false} EveryRunLogged(s0: State, acts: seq<Action>)
    requires IsRun(s0, acts)
    ensures LogFaithful(Exec(s0, acts).value)
  {
    if acts != [] {
      var before := acts[..|acts| - 1];
      EveryRunLogged(s0, before);
      EveryRunAccounted(s0, before);
      StepKeepsLog(Exec(s0, before).value, acts[|acts| - 1]);
    }
  }

  lemma {:induction false} ExecSplit(s0: State, acts: seq<Action>, more: seq<Action>)
    requires Exec(s0, acts + more).Some?
    ensures Exec(s0, acts).Some? && Exec(s0, acts + more) == Exec(Exec(s0, acts).value, more)
    decreases |more|, 1
  {
    if more == [] {
      assert acts + more == acts;
    } else {
      var before, a := more[..|more| - 1], more[|more| - 1];
      assert more == before + [a];
      assert acts + more == (acts + before) + [a];
      SplitLast(s0, acts, before, a);
    }
  }

  lemma {:induction false} SplitLast(s0: State, acts: seq<Action>, before: seq<Action>, a: Action)
    requires Exec(s0, (acts + before) + [a]).Some?
    ensures Exec(s0, acts).Some? && Exec(s0, (acts + before) + [a]) == Exec(Exec(s0, acts).value, before + [a])
    decreases |before| + 1, 0
  {
    ExecAppend(s0, acts + before, a);
    ExecSplit(s0, acts, before);
    ExecBoth(s0, acts + before, Exec(s0, acts).value, before, a);
  }

  /** Two runs that reach the same state reach the same one with one more action. */
  lemma ExecBoth(s: State, acts: seq<Action>, t: State, more: seq<Action>, a: Action)
    requires Exec(s, acts) == Exec(t, more) && Exec(s, acts).Some? && Shape(Exec(s, acts).value)
    requires Enabled(Exec(s, acts).value, a)
    ensures Exec(s, acts + [a]) == Exec(t, more + [a])
  {
    ExecExtend(s, acts, a);
    ExecExtend(t, more, a);
  }

  lemma StepKeepsCall(s: State, a: Action, i: nat)
    requires Shape(s) && Enabled(s, a) && i < |s.ops|
    ensures i < |Apply(s, a).ops| && SameCall(Apply(s, a).ops[i], s.ops[i])
  {
  }

  lemma {:induction false} CallsFixed(s: State, more: seq<Action>, i: nat)
    requires Shape(s) && Exec(s, more).Some? && i < |s.ops|
    ensures i < |Exec(s, more).value.ops| && SameCall(Exec(s, more).value.ops[i], s.ops[i])
  {
    if more != [] {
      CallsFixed(s, more[..|more| - 1], i);
      StepKeepsCall(Exec(s, more[..|more| - 1]).value, more[|more| - 1], i);
    }
  }

  /** Whatever happens after a store is called: when it completes, what the log records is the
      contents its page had at the moment of the call. */
  lemma StoreRecordsCallTimeContents(s0: State, acts: seq<Action>, cpu: nat, page: nat, slot: nat,
                                     more: seq<Action>, k: nat)
    requires IsRun(s0, acts + [StartStore(cpu, page, slot)] + more)
    requires k < |Exec(s0, acts + [StartStore(cpu, page, slot)] + more).value.log|
    requires Exec(s0, acts).Some?
    requires Exec(s0, acts + [StartStore(cpu, page, slot)] + more).value.log[k].op == |Exec(s0, acts).value.ops|
    ensures var s := Exec(s0, acts).value;
      && page < |s.pages|
      && Exec(s0, acts + [StartStore(cpu, page, slot)] + more).value.log[k] == Stored(|s.ops|, slot, s.pages[page].contents)
  {
    var call := acts + [StartStore(cpu, page, slot)];
    EveryRunLogged(s0, call + more);
    ExecSplit(s0, call, more);
    ExecAppend(s0, acts, StartStore(cpu, page, slot));
    var s, t := Exec(s0, acts).value, Exec(s0, call).value;
    ApplyKeepsShape(s, StartStore(cpu, page, slot));
    CallsFixed(t, more, |s.ops|);
    var u := Exec(s0, call + more).value;
    assert Describes(u.log[k], u.ops[u.log[k].op]);
  }

  // ----- refinement

  /** Main theorem. For every interleaving that follows the kernel's rules, the operations the
      clients saw complete form a sequential history of the DRAM backend, and once a slot has no
      store under way, far memory holds there exactly what the DRAM backend would. */
  lemma RdmaRefinesDram(s0: State, acts: seq<Action>)
    requires IsDisciplinedRun(s0, acts)
    ensures var s := Exec(s0, acts).value;
      && DramAccepts(s0.remote, s.log)
      && LogFaithful(s)
      && |s.remote| == |s0.remote|
      && forall slot | 0 <= slot < |s.remote| && SlotHasNoStore(s, slot) ::
           s.remote[slot] == Replay(s0.remote, s.log)[slot]
  {
    var s := Exec(s0, acts).value;
    EveryRunCoherent(s0, acts);
    EveryRunLogged(s0, acts);
    forall slot | 0 <= slot < |s.remote| && SlotHasNoStore(s, slot)
      ensures s.remote[slot] == Replay(s0.remote, s.log)[slot]
    {
      assert Settled(s, slot) by {
        forall i | 0 <= i < |s.ops| && StoreLanded(s.ops[i]) ensures s.ops[i].slot != slot {
          assert Active(s.ops[i]);
        }
      }
    }
  }

  /** j is the latest store to the slot among the first k log entries, or -1 if there is none. */
  ghost predicate IsLatestStore(log: seq<Event>, k: nat, slot: nat, j: int)
    requires k <= |log|
  {
    && -1 <= j < k
    && (j >= 0 ==> log[j].Stored? && log[j].slot == slot)
    && forall m | j < m < k :: !(log[m].Stored? && log[m].slot == slot)
  }

  lemma {:induction false} ReplayIsLatestStore(init: seq<Contents>, log: seq<Event>, slot: nat) returns (j: int)
    requires slot < |init|
    ensures IsLatestStore(log, |log|, slot, j)
    ensures Replay(init, log)[slot] == if j >= 0 then log[j].data else init[slot]
  {
    if log == [] {
      return -1;
    }
    var n := |log| - 1;
    if log[n].Stored? && log[n].slot == slot {
      return n;
    }
    j := ReplayIsLatestStore(init, log[..n], slot);
    assert forall m | j < m < n :: log[m] == log[..n][m];
  }

  lemma {:induction false} AcceptedPrefix(init: seq<Contents>, log: seq<Event>, k: nat)
    requires DramAccepts(init, log) && k < |log|
    ensures log[k].slot < |init|
    ensures log[k].Loaded? ==> log[k].data == Replay(init, log[..k])[log[k].slot]
  {
    var n := |log| - 1;
    if k < n {
      AcceptedPrefix(init, log[..n], k);
      assert log[..n][..k] == log[..k];
    }
  }

  /** Every completed load delivers the contents of the last completed store to its slot, or
      what far memory held at the start if nothing was stored there. */
  lemma LoadSeesLatestStore(s0: State, acts: seq<Action>, k: nat) returns (j: int)
    requires IsDisciplinedRun(s0, acts)
    requires k < |Exec(s0, acts).value.log| && Exec(s0, acts).value.log[k].Loaded?
    ensures var log := Exec(s0, acts).value.log;
      && log[k].slot < |s0.remote|
      && IsLatestStore(log, k, log[k].slot, j)
      && log[k].data == if j >= 0 then log[j].data else s0.remote[log[k].slot]
  {
    var log := Exec(s0, acts).value.log;
    RdmaRefinesDram(s0, acts);
    AcceptedPrefix(s0.remote, log, k);
    j := ReplayIsLatestStore(s0.remote, log[..k], log[k].slot);
    assert forall m | 0 <= m < k :: log[..k][m] == log[m];
  }

  /** In a disciplined run the page of a load stays locked and not up to date from the call
      until its callback sets the flag, and no other operation uses it meanwhile. */
  lemma LoadPageGuarded(s0: State, acts: seq<Action>, i: nat)
    requires IsDisciplinedRun(s0, acts)
    requires i < |Exec(s0, acts).value.ops| && Exec(s0, acts).value.ops[i].kind == Load
    requires !UnlockDone(Exec(s0, acts).value.ops[i])
    ensures var s := Exec(s0, acts).value;
      && s.ops[i].page < |s.pages|
      && s.pages[s.ops[i].page].locked
      && (s.pages[s.ops[i].page].uptodate <==> s.ops[i].phase == Uptodated)
      && forall j | 0 <= j < |s.ops| && j != i && Active(s.ops[j]) :: s.ops[j].page != s.ops[i].page
  {
    EveryRunCoherent(s0, acts);
    var s := Exec(s0, acts).value;
    assert PageRight(s.ops[i], s.pages[s.ops[i].page], s.remote[s.ops[i].slot]);
    forall j | 0 <= j < |s.ops| && j != i && Active(s.ops[j]) ensures s.ops[j].page != s.ops[i].page {
      if j < i { assert Active(s.ops[i]); }
    }
  }
}
