/** How far pending can overshoot the back-pressure limits when the check and the increment
    are separate steps, and exactly when BUG_ON(inflight > QP_MAX_SEND_WR) is out of reach. */
module Backpressure {
  import opened Wrappers
  import opened QueueTable
  import opened PageStore
  import opened Accounting
  import opened Coherence

  /** Past the back-pressure check, not yet counted in pending. */
  predicate Producing(op: Op) {
    op.pc == Passed || op.pc == Mapped
  }

  ghost function ProducersOn(q: nat): Op -> bool {
    (op: Op) => op.queue == q && Producing(op)
  }

  ghost predicate AtMostProducers(s0: State, acts: seq<Action>, q: nat, k: nat) {
    forall n | 0 <= n <= |acts| ::
      Exec(s0, acts[..n]).Some? && Count(Exec(s0, acts[..n]).value.ops, ProducersOn(q)) <= k
  }

  /** An op in the back-pressure loop of q reads a value on which BUG_ON fires. */
  ghost predicate BugFires(s: State, q: nat) {
    q < |s.pending| && s.pending[q] > QP_MAX_SEND_WR &&
    exists i :: 0 <= i < |s.ops| && s.ops[i].queue == q && s.ops[i].pc == Checking
  }

  ghost predicate Bounded(s: State, q: nat, k: nat)
    requires Shape(s) && q < |s.pending|
  {
    s.pending[q] + Count(s.ops, ProducersOn(q)) < Limit(KindOf(QueueType(s.numcpus, q))) + k
  }

  lemma StepKeepsBound(s: State, a: Action, q: nat, k: nat)
    requires Accounted(s) && Enabled(s, a) && q < |s.pending| && Bounded(s, q, k)
    requires Count(Apply(s, a).ops, ProducersOn(q)) <= k
    ensures Shape(Apply(s, a)) && q < |Apply(s, a).pending| && Bounded(Apply(s, a), q, k)
  {
    var t := Apply(s, a);
    ApplyKeepsShape(s, a);
    if a.Advance? {
      CountUpdate(s.ops, a.i, StepOp(s.ops[a.i], a.step), ProducersOn(q));
      AdvanceBound(s, a.i, a.step, q, k);
    } else if |t.ops| > |s.ops| {
      CountAppend(s.ops, t.ops[|s.ops|], ProducersOn(q));
      assert t.ops == s.ops + [t.ops[|s.ops|]];
    } else {
      assert t.ops == s.ops;
    }
  }

  lemma AdvanceBound(s: State, i: nat, step: Step, q: nat, k: nat)
    requires Accounted(s) && i < |s.ops| && q < |s.pending| && Bounded(s, q, k)
    requires StepEnabled(s.ops[i], step, s.pending[s.ops[i].queue])
    requires Count(AdvanceOp(s, i, step).ops, ProducersOn(q)) <= k
    ensures AdvanceOp(s, i, step).pending[q] + Count(AdvanceOp(s, i, step).ops, ProducersOn(q))
          < Limit(KindOf(QueueType(s.numcpus, q))) + k
  {
    CountUpdate(s.ops, i, StepOp(s.ops[i], step), ProducersOn(q));
    assert Consistent(s.ops[i]);
  }

  /** With at most k producers past the check at any time, pending stays below limit + k: at
      most 4087 + k on a write queue and 4095 + k on a read queue. */
  lemma {:induction false} PendingBounded(s0: State, acts: seq<Action>, q: nat, k: nat)
    requires IsRun(s0, acts) && q < 3 * s0.numcpus && AtMostProducers(s0, acts, q, k)
    ensures var s := Exec(s0, acts).value;
      && q < |s.pending| && s.numcpus == s0.numcpus && Shape(s) && Bounded(s, q, k)
      && s.pending[q] <= (if QueueType(s0.numcpus, q) == WriteSync then 4087 else 4095) + k
  {
    if acts != [] {
      var before, a := acts[..|acts| - 1], acts[|acts| - 1];
      assert forall n | 0 <= n <= |before| :: before[..n] == acts[..n];
      PendingBounded(s0, before, q, k);
      EveryRunAccounted(s0, before);
      assert acts[..|acts|] == acts;
      StepKeepsBound(Exec(s0, before).value, a, q, k);
    } else {
      assert Exec(s0, acts).value == s0;
    }
  }

  /** The largest number of concurrent producers that keeps BUG_ON quiet: 9 on a write queue,
      1 on a read queue. */
  function SafeProducers(kind: Kind): nat {
    if kind == Store then 9 else 1
  }

  lemma NoBugWithinBound(s0: State, acts: seq<Action>, q: nat, k: nat)
    requires IsRun(s0, acts) && q < 3 * s0.numcpus && AtMostProducers(s0, acts, q, k)
    requires k <= SafeProducers(KindOf(QueueType(s0.numcpus, q)))
    ensures !BugFires(Exec(s0, acts).value, q)
  {
    PendingBounded(s0, acts, q, k);
  }

  // ----- the bound is tight

  /** Some disciplined run with never more than k producers on q ends in s. */
  ghost predicate Reaches(s0: State, s: State, q: nat, k: nat) {
    exists acts :: IsDisciplinedRun(s0, acts) && AtMostProducers(s0, acts, q, k) && Exec(s0, acts) == Some(s)
  }

  lemma ReachesNext(s0: State, s: State, a: Action, q: nat, k: nat)
    requires Reaches(s0, s, q, k) && Shape(s) && Enabled(s, a) && Disciplined(s, a)
    requires Count(Apply(s, a).ops, ProducersOn(q)) <= k
    ensures Reaches(s0, Apply(s, a), q, k)
  {
    var acts :| IsDisciplinedRun(s0, acts) && AtMostProducers(s0, acts, q, k) && Exec(s0, acts) == Some(s);
    DisciplinedExtend(s0, acts, a);
    var all := acts + [a];
    forall n | 0 <= n <= |all|
      ensures Exec(s0, all[..n]).Some? && Count(Exec(s0, all[..n]).value.ops, ProducersOn(q)) <= k
    {
      if n <= |acts| { assert all[..n] == acts[..n]; } else { assert all[..n] == all; }
    }
    assert AtMostProducers(s0, all, q, k);
    ExecExtend(s0, acts, a);
  }

  /** Op i uses queue q, page i and slot i; room for room ops in all. */
  ghost predicate Filling(s: State, q: nat, room: nat) {
    && Shape(s) && q < |s.pending| && room <= |s.pages| && room <= |s.remote| && s.faults == []
    && forall i | 0 <= i < |s.ops| :: s.ops[i].queue == q && s.ops[i].page == i && s.ops[i].slot == i
  }

  ghost function Producers(s: State, q: nat): nat {
    Count(s.ops, ProducersOn(q))
  }

  lemma ReachesAccounted(s0: State, s: State, q: nat, k: nat)
    requires Reaches(s0, s, q, k)
    ensures Accounted(s)
  {
    var acts :| IsDisciplinedRun(s0, acts) && AtMostProducers(s0, acts, q, k) && Exec(s0, acts) == Some(s);
    EveryRunAccounted(s0, acts);
  }

  lemma AdvanceFilling(s: State, i: nat, step: Step, q: nat, room: nat)
    requires Accounted(s) && Filling(s, q, room) && i < |s.ops| && StepEnabled(s.ops[i], step, s.pending[q])
    requires step in {Pass, Map, Inc, PostOk}
    ensures var t := AdvanceOp(s, i, step);
      && Filling(t, q, room)
      && t.pending[q] == s.pending[q] + StepPending(step)
      && Producers(t, q) == Producers(s, q) + (if step == Pass then 1 else if step == Inc then -1 else 0)
  {
    AdvanceKeepsAccounts(s, i, step);
    CountUpdate(s.ops, i, StepOp(s.ops[i], step), ProducersOn(q));
  }

  lemma ReachStep(s0: State, s: State, i: nat, step: Step, q: nat, room: nat, k: nat) returns (t: State)
    requires Reaches(s0, s, q, k) && Filling(s, q, room) && i < |s.ops|
    requires step in {Pass, Map, Inc, PostOk} && StepEnabled(s.ops[i], step, s.pending[q])
    requires Producers(s, q) <= k && (step == Pass ==> Producers(s, q) < k)
    ensures Reaches(s0, t, q, k) && Filling(t, q, room) && t.numcpus == s.numcpus
    ensures t.ops == s.ops[i := StepOp(s.ops[i], step)]
    ensures t.pending[q] == s.pending[q] + StepPending(step)
    ensures Producers(t, q) == Producers(s, q) + (if step == Pass then 1 else if step == Inc then -1 else 0)
  {
    ReachesAccounted(s0, s, q, k);
    AdvanceFilling(s, i, step, q, room);
    t := AdvanceOp(s, i, step);
    ReachesNext(s0, s, Advance(i, step), q, k);
  }

  lemma NewOpFilling(s: State, a: Action, q: nat, room: nat)
    requires Filling(s, q, room) && |s.ops| < room && Enabled(s, a) && (a.StartStore? || a.StartLoad?)
    requires a.page == a.slot == |s.ops| && Apply(s, a).ops[|s.ops|].queue == q
    ensures Filling(Apply(s, a), q, room) && Producers(Apply(s, a), q) == Producers(s, q)
  {
    ApplyKeepsShape(s, a);
    CountAppend(s.ops, Apply(s, a).ops[|s.ops|], ProducersOn(q));
  }

  lemma AllocFilling(s: State, q: nat, room: nat)
    requires Filling(s, q, room) && |s.ops| < room
    ensures Filling(Apply(s, AllocLocked(|s.ops|)), q, room)
  {
    ApplyKeepsShape(s, AllocLocked(|s.ops|));
  }

  /** Start one more call on the queue, on a page and a slot of its own. */
  lemma ReachStart(s0: State, s: State, cpu: nat, qtype: QpType, q: nat, room: nat, k: nat) returns (t: State)
    requires Reaches(s0, s, q, k) && Filling(s, q, room) && |s.ops| < room && Producers(s, q) <= k
    requires cpu < s.numcpus && q == QueueIndex(s.numcpus, cpu, qtype)
    ensures Reaches(s0, t, q, k) && Filling(t, q, room) && t.numcpus == s.numcpus
    ensures |t.ops| == |s.ops| + 1 && t.ops[..|s.ops|] == s.ops && t.ops[|s.ops|].pc == Checking
    ensures t.pending == s.pending && Producers(t, q) == Producers(s, q)
  {
    if qtype == WriteSync {
      t := ReachStartStore(s0, s, cpu, q, room, k);
    } else {
      t := ReachStartLoad(s0, s, cpu, qtype, q, room, k);
    }
  }

  lemma ReachStartStore(s0: State, s: State, cpu: nat, q: nat, room: nat, k: nat) returns (t: State)
    requires Reaches(s0, s, q, k) && Filling(s, q, room) && |s.ops| < room && Producers(s, q) <= k
    requires cpu < s.numcpus && q == QueueIndex(s.numcpus, cpu, WriteSync)
    ensures Reaches(s0, t, q, k) && Filling(t, q, room) && t.numcpus == s.numcpus
    ensures |t.ops| == |s.ops| + 1 && t.ops[..|s.ops|] == s.ops && t.ops[|s.ops|].pc == Checking
    ensures t.pending == s.pending && Producers(t, q) == Producers(s, q)
  {
    var n := |s.ops|;
    NewOpFilling(s, StartStore(cpu, n, n), q, room);
    ReachesNext(s0, s, StartStore(cpu, n, n), q, k);
    t := Apply(s, StartStore(cpu, n, n));
  }

  lemma ReachStartLoad(s0: State, s: State, cpu: nat, qtype: QpType, q: nat, room: nat, k: nat) returns (t: State)
    requires Reaches(s0, s, q, k) && Filling(s, q, room) && |s.ops| < room && Producers(s, q) <= k
    requires cpu < s.numcpus && q == QueueIndex(s.numcpus, cpu, qtype) && qtype != WriteSync
    ensures Reaches(s0, t, q, k) && Filling(t, q, room) && t.numcpus == s.numcpus
    ensures |t.ops| == |s.ops| + 1 && t.ops[..|s.ops|] == s.ops && t.ops[|s.ops|].pc == Checking
    ensures t.pending == s.pending && Producers(t, q) == Producers(s, q)
  {
    var n := |s.ops|;
    var m := ReachAlloc(s0, s, q, room, k);
    NewOpFilling(m, StartLoad(cpu, qtype, n, n), q, room);
    ReachesNext(s0, m, StartLoad(cpu, qtype, n, n), q, k);
    t := Apply(m, StartLoad(cpu, qtype, n, n));
  }

  /** Lock a page for the next load. */
  lemma ReachAlloc(s0: State, s: State, q: nat, room: nat, k: nat) returns (t: State)
    requires Reaches(s0, s, q, k) && Filling(s, q, room) && |s.ops| < room && Producers(s, q) <= k
    ensures Reaches(s0, t, q, k) && Filling(t, q, room) && t.numcpus == s.numcpus
    ensures t.ops == s.ops && t.pending == s.pending && t.remote == s.remote && |t.pages| == |s.pages|
    ensures t.pages[|s.ops|].locked && !t.pages[|s.ops|].uptodate
  {
    AllocFilling(s, q, room);
    ReachesNext(s0, s, AllocLocked(|s.ops|), q, k);
    t := Apply(s, AllocLocked(|s.ops|));
  }

  /** One whole call up to its post: pending grows by one. */
  lemma ReachOne(s0: State, s: State, cpu: nat, qtype: QpType, q: nat, room: nat, k: nat) returns (t: State)
    requires Reaches(s0, s, q, k) && Filling(s, q, room) && |s.ops| < room && Producers(s, q) < k
    requires cpu < s.numcpus && q == QueueIndex(s.numcpus, cpu, qtype)
    requires s.pending[q] < Limit(KindOf(qtype))
    ensures Reaches(s0, t, q, k) && Filling(t, q, room) && t.numcpus == s.numcpus
    ensures |t.ops| == |s.ops| + 1 && t.pending[q] == s.pending[q] + 1 && Producers(t, q) == Producers(s, q)
  {
    var n := |s.ops|;
    t := ReachPassed(s0, s, cpu, qtype, q, room, k);
    t := ReachStep(s0, t, n, Map, q, room, k);
    t := ReachStep(s0, t, n, Inc, q, room, k);
    t := ReachStep(s0, t, n, PostOk, q, room, k);
  }

  /** Bring pending to just below the limit, one call at a time. */
  lemma ReachLimit(s0: State, cpu: nat, qtype: QpType, q: nat, room: nat, k: nat) returns (s: State)
    requires Reaches(s0, s0, q, k) && Filling(s0, q, room) && s0.ops == [] && s0.pending[q] == 0 && k >= 1
    requires cpu < s0.numcpus && q == QueueIndex(s0.numcpus, cpu, qtype) && room >= Limit(KindOf(qtype))
    ensures Reaches(s0, s, q, k) && Filling(s, q, room) && s.numcpus == s0.numcpus
    ensures |s.ops| == s.pending[q] == Limit(KindOf(qtype)) - 1 && Producers(s, q) == 0
  {
    s := s0;
    while |s.ops| < Limit(KindOf(qtype)) - 1
      invariant |s.ops| <= Limit(KindOf(qtype)) - 1
      invariant Reaches(s0, s, q, k) && Filling(s, q, room) && s.numcpus == s0.numcpus
      invariant |s.ops| == s.pending[q] && Producers(s, q) == 0
    {
      s := ReachOne(s0, s, cpu, qtype, q, room, k);
    }
  }

  predicate AllPassed(ops: seq<Op>, base: nat) {
    forall i | base <= i < |ops| :: ops[i].pc == Passed
  }

  lemma PassedFrom(before: seq<Op>, after: seq<Op>, base: nat)
    requires AllPassed(before, base) && |after| == |before| + 1 && after[|before|].pc == Passed
    requires forall i | 0 <= i < |before| :: after[i] == before[i]
    ensures AllPassed(after, base)
  {
    forall i | base <= i < |after| ensures after[i].pc == Passed {
      if i < |before| { assert after[i] == before[i]; }
    }
  }

  /** Let todo more calls pass the check, on top of those from base on. */
  lemma PassTogether(s0: State, s: State, base: nat, todo: nat, cpu: nat, qtype: QpType, q: nat, room: nat, k: nat)
    returns (t: State)
    requires Reaches(s0, s, q, k) && Filling(s, q, room) && base <= |s.ops| <= room - todo
    requires Producers(s, q) + todo == k
    requires cpu < s.numcpus && q == QueueIndex(s.numcpus, cpu, qtype)
    requires s.pending[q] < Limit(KindOf(qtype))
    requires AllPassed(s.ops, base)
    ensures Reaches(s0, t, q, k) && Filling(t, q, room) && t.numcpus == s.numcpus
    ensures |t.ops| == |s.ops| + todo && t.pending[q] == s.pending[q] && Producers(t, q) == k
    ensures AllPassed(t.ops, base)
    decreases todo
  {
    t := s;
    if todo > 0 {
      var u := ReachPassed(s0, s, cpu, qtype, q, room, k);
      PassedFrom(s.ops, u.ops, base);
      t := PassTogether(s0, u, base, todo - 1, cpu, qtype, q, room, k);
    }
  }

  /** One more call past the check. */
  lemma ReachPassed(s0: State, s: State, cpu: nat, qtype: QpType, q: nat, room: nat, k: nat) returns (t: State)
    requires Reaches(s0, s, q, k) && Filling(s, q, room) && |s.ops| < room && Producers(s, q) < k
    requires cpu < s.numcpus && q == QueueIndex(s.numcpus, cpu, qtype)
    requires s.pending[q] < Limit(KindOf(qtype))
    ensures Reaches(s0, t, q, k) && Filling(t, q, room) && t.numcpus == s.numcpus
    ensures |t.ops| == |s.ops| + 1 && t.ops[|s.ops|].pc == Passed
    ensures forall i | 0 <= i < |s.ops| :: t.ops[i] == s.ops[i]
    ensures t.pending[q] == s.pending[q] && Producers(t, q) == Producers(s, q) + 1
  {
    var n := |s.ops|;
    QueueIndexIsBijection(s.numcpus);
    t := ReachStart(s0, s, cpu, qtype, q, room, k);
    assert forall i | 0 <= i < n :: t.ops[i] == t.ops[..n][i] == s.ops[i];
    t := ReachStep(s0, t, n, Pass, q, room, k);
  }

  /** Let one call that has passed the check go on to increment pending. */
  lemma CountOne(s0: State, s: State, i: nat, q: nat, room: nat, k: nat) returns (t: State)
    requires Reaches(s0, s, q, k) && Filling(s, q, room) && i < |s.ops| && Producers(s, q) <= k
    requires AllPassed(s.ops, i)
    ensures Reaches(s0, t, q, k) && Filling(t, q, room) && t.numcpus == s.numcpus && |t.ops| == |s.ops|
    ensures t.pending[q] == s.pending[q] + 1 && Producers(t, q) == Producers(s, q) - 1
    ensures AllPassed(t.ops, i + 1)
  {
    t := ReachStep(s0, s, i, Map, q, room, k);
    t := ReachStep(s0, t, i, Inc, q, room, k);
  }

  /** Then let all of them increment it. */
  lemma CountTogether(s0: State, s: State, base: nat, q: nat, room: nat, k: nat) returns (t: State)
    requires Reaches(s0, s, q, k) && Filling(s, q, room) && base + k == |s.ops| && Producers(s, q) == k
    requires AllPassed(s.ops, base)
    ensures Reaches(s0, t, q, k) && Filling(t, q, room) && t.numcpus == s.numcpus
    ensures |t.ops| == |s.ops| && t.pending[q] == s.pending[q] + k && Producers(t, q) == 0
  {
    t := s;
    var j := 0;
    while j < k
      invariant j <= k && |t.ops| == |s.ops| && t.numcpus == s.numcpus
      invariant Reaches(s0, t, q, k) && Filling(t, q, room)
      invariant t.pending[q] == s.pending[q] + j && Producers(t, q) == k - j
      invariant AllPassed(t.ops, base + j)
    {
      t := CountOne(s0, t, base + j, q, room, k);
      j := j + 1;
    }
  }

  lemma StartFilling(s0: State, q: nat, k: nat)
    requires Init(s0) && q < 3 * s0.numcpus
    ensures Reaches(s0, s0, q, k)
    ensures forall room: nat | room <= |s0.pages| && room <= |s0.remote| :: Filling(s0, q, room)
  {
    assert Exec(s0, []) == Some(s0) && IsDisciplinedRun(s0, []) && AtMostProducers(s0, [], q, k);
  }

  /** For every k >= 1 a disciplined run with at most k producers brings pending to exactly
      limit - 1 + k while a further call stands in the back-pressure loop. */
  lemma OvershootReached(s0: State, cpu: nat, qtype: QpType, k: nat) returns (s: State)
    requires Init(s0) && cpu < s0.numcpus && k >= 1
    requires |s0.pages| >= Limit(KindOf(qtype)) + k && |s0.remote| >= Limit(KindOf(qtype)) + k
    ensures Shape(s) && s.numcpus == s0.numcpus && QueueIndex(s0.numcpus, cpu, qtype) < |s.pending|
    ensures var q := QueueIndex(s0.numcpus, cpu, qtype);
      && Reaches(s0, s, q, k)
      && s.pending[q] == Limit(KindOf(qtype)) - 1 + k
      && exists i :: 0 <= i < |s.ops| && s.ops[i].queue == q && s.ops[i].pc == Checking
  {
    var q, room := QueueIndex(s0.numcpus, cpu, qtype), Limit(KindOf(qtype)) + k;
    QueueIndexIsBijection(s0.numcpus);
    StartFilling(s0, q, k);
    s := ReachLimit(s0, cpu, qtype, q, room, k);
    var base := |s.ops|;
    s := PassTogether(s0, s, base, k, cpu, qtype, q, room, k);
    s := CountTogether(s0, s, base, q, room, k);
    var n := |s.ops|;
    s := ReachStart(s0, s, cpu, qtype, q, room, k);
    assert s.ops[n].pc == Checking;
  }

  /** BUG_ON is out of reach if and only if at most 9 producers (write queues) or 1 producer
      (read queues) can be past the check at once. */
  lemma BugReachableIffTooManyProducers(s0: State, cpu: nat, qtype: QpType, k: nat)
    requires Init(s0) && cpu < s0.numcpus && k >= 1
    requires |s0.pages| >= Limit(KindOf(qtype)) + k && |s0.remote| >= Limit(KindOf(qtype)) + k
    ensures k > SafeProducers(KindOf(qtype)) <==>
      exists s :: Reaches(s0, s, QueueIndex(s0.numcpus, cpu, qtype), k)
                  && BugFires(s, QueueIndex(s0.numcpus, cpu, qtype))
  {
    var q := QueueIndex(s0.numcpus, cpu, qtype);
    QueueIndexIsBijection(s0.numcpus);
    if k > SafeProducers(KindOf(qtype)) {
      var s := OvershootReached(s0, cpu, qtype, k);
      assert Reaches(s0, s, q, k) && BugFires(s, q);
    } else {
      forall s | Reaches(s0, s, q, k) ensures !BugFires(s, q) {
        var acts :| IsDisciplinedRun(s0, acts) && AtMostProducers(s0, acts, q, k) && Exec(s0, acts) == Some(s);
        NoBugWithinBound(s0, acts, q, k);
      }
    }
  }
}
