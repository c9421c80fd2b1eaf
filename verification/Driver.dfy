/** The driver's functions as code, run on the shared state of PageStore while the other
    CPUs, the NIC and the completion callbacks keep taking steps in between
    (code/drivers/fastswap_rdma.c, code/kernel/kernel.patch). Getting a page and starting its
    load are the only steps of a thread taken together. Busy-wait loops take a bound on
    how often they go round; a call that runs out of it has not returned yet. */
module Driver {
  import opened Wrappers
  import opened Addressing
  import opened QueueTable
  import opened PageStore
  import opened Accounting
  import opened Coherence
  import opened Refinement
  import opened FaultPath

  /** The steps that only the calling thread takes. */
  predicate CallerStep(step: Step) {
    step in {Pass, Map, Inc, PostOk, PostRefused, ReturnStore}
  }

  /** An action of somebody else than the thread that runs calls ops and faults faults. */
  predicate ByOthers(a: Action, ops: set<nat>, faults: set<nat>) {
    match a
    case Advance(i, step) => CallerStep(step) ==> i !in ops
    case FaultIssue(f, _, _) => f !in faults
    case FaultHit(f, _) => f !in faults
    case FaultPrefetch(f, _, _, _) => f !in faults
    case FaultReturn(f) => f !in faults
    case _ => true
  }

  /** What a thread can count on while others run. */
  ghost predicate Rely(s: State, t: State, ops: set<nat>, faults: set<nat>) {
    && t.numcpus == s.numcpus && |t.pages| == |s.pages| && |t.remote| == |s.remote|
    && |s.ops| <= |t.ops| && |s.faults| <= |t.faults|
    && (forall i | 0 <= i < |s.ops| :: SameCall(s.ops[i], t.ops[i]) && (Retired(s.ops[i]) ==> Retired(t.ops[i])))
    && (forall i | i in ops && i < |s.ops| :: t.ops[i].pc == s.ops[i].pc)
    && (forall f | f in faults && f < |s.faults| :: t.faults[f] == s.faults[f])
  }

  lemma OthersKeepRely(s: State, a: Action, ops: set<nat>, faults: set<nat>)
    requires Accounted(s) && Enabled(s, a) && ByOthers(a, ops, faults)
    ensures Rely(s, Apply(s, a), ops, faults)
  {
    if a.Advance? { AdvanceKeepsRely(s, a.i, a.step, ops, faults); }
  }

  lemma AdvanceKeepsRely(s: State, i: nat, step: Step, ops: set<nat>, faults: set<nat>)
    requires Accounted(s) && i < |s.ops| && StepEnabled(s.ops[i], step, s.pending[s.ops[i].queue])
    requires CallerStep(step) ==> i !in ops
    ensures Rely(s, AdvanceOp(s, i, step), ops, faults)
  {
    StepKeepsRetired(s.ops[i], step, s.pending[s.ops[i].queue]);
  }

  lemma StepKeepsRetired(op: Op, step: Step, pending: int)
    requires Consistent(op) && StepEnabled(op, step, pending)
    ensures Retired(op) ==> Retired(StepOp(op, step))
  {
  }

  lemma RelyTransitive(s: State, t: State, u: State, ops: set<nat>, faults: set<nat>)
    requires Rely(s, t, ops, faults) && Rely(t, u, ops, faults)
    ensures Rely(s, u, ops, faults)
  {
  }

  function RetiredOn(q: nat): Op -> bool {
    (op: Op) => op.queue == q && Retired(op)
  }

  /** How many requests of the queue have completed so far. */
  function Completed(s: State, q: nat): nat {
    Count(s.ops, RetiredOn(q))
  }

  lemma {:induction false} CountGrows(ops: seq<Op>, later: seq<Op>, p: Op -> bool)
    requires |ops| <= |later| && forall i | 0 <= i < |ops| :: p(ops[i]) ==> p(later[i])
    ensures Count(ops, p) <= Count(later, p)
  {
    var n := |later| - 1;
    if |ops| < |later| {
      CountGrows(ops, later[..n], p);
    } else if ops != [] {
      CountGrows(ops[..n], later[..n], p);
    }
  }

  lemma CompletedGrows(s: State, t: State, ops: set<nat>, faults: set<nat>, q: nat)
    requires Rely(s, t, ops, faults)
    ensures Completed(s, q) <= Completed(t, q)
  {
    CountGrows(s.ops, t.ops, RetiredOn(q));
  }

  /** A store that has drained its queue is ready to return: its contents are in far memory. */
  lemma StoreReady(init: seq<Contents>, s: State, i: nat)
    requires Coherent(init, s) && i < |s.ops| && s.ops[i].pc == Draining && s.pending[s.ops[i].queue] <= 0
    ensures s.ops[i].kind == Store && Retired(s.ops[i]) && s.remote[s.ops[i].slot] == s.ops[i].data
  {
    NothingPending(s, i);
    assert Consistent(s.ops[i]);
    assert PageRight(s.ops[i], s.pages[s.ops[i].page], s.remote[s.ops[i].slot]);
  }

  /** Fault f of this thread between its own load and its return. */
  ghost predicate MyFault(s: State, f: nat, cpu: nat, page: nat, slot: nat, own: Option<nat>) {
    && f < |s.faults| && s.faults[f].cpu == cpu && s.faults[f].page == Some(page)
    && s.faults[f].own == own && MayContinue(s, s.faults[f])
    && (own.Some? ==> s.ops[own.value].page == page && s.ops[own.value].slot == slot)
  }

  /** The calls a fault has made whose return it relies on. */
  function CallsOf(f: Fault): set<nat> {
    (if f.own.Some? then {f.own.value} else {}) + (if f.window != [] then {f.window[|f.window| - 1]} else {})
  }

  lemma MyFaultStable(s: State, t: State, f: nat, cpu: nat, page: nat, slot: nat, own: Option<nat>)
    requires MyFault(s, f, cpu, page, slot, own) && Rely(s, t, CallsOf(s.faults[f]), {f})
    ensures MyFault(t, f, cpu, page, slot, own)
  {
  }

  /** The fault's latest prefetch is call i, the rest is as before it. */
  ghost predicate Prefetching(s: State, f: nat, i: nat, cpu: nat, page: nat, slot: nat, own: Option<nat>) {
    && f < |s.faults| && s.faults[f].cpu == cpu && s.faults[f].page == Some(page) && s.faults[f].stage == Ahead
    && s.faults[f].own == own && i < |s.ops|
    && s.faults[f].window != [] && s.faults[f].window[|s.faults[f].window| - 1] == i
    && (own.Some? ==> own.value < |s.ops| && own.value != i && s.ops[own.value].pc == Returned
                      && s.ops[own.value].page == page && s.ops[own.value].slot == slot)
  }

  /** Once its latest prefetch call is back, the fault may go on. */
  lemma PrefetchDone(s: State, t: State, f: nat, i: nat, cpu: nat, page: nat, slot: nat, own: Option<nat>)
    requires Prefetching(s, f, i, cpu, page, slot, own) && Rely(s, t, CallsOf(s.faults[f]) - {i}, {f})
    requires i < |t.ops| && t.ops[i].pc == Returned
    ensures MyFault(t, f, cpu, page, slot, own)
  {
    assert own.Some? ==> own.value in CallsOf(s.faults[f]) - {i};
  }

  // ----- the readahead window

  /** What a thread gets when it asks for a page to read a slot into: the page, and the CPU it is
      on by then. */
  datatype Chance = Chance(cpu: nat, page: nat)

  /** A load of the slot can start: the CPU, the page and the slot exist, the page is free and no
      store to the slot is under way. */
  predicate CanPrefetch(s: State, c: Chance, slot: nat) {
    && c.cpu < s.numcpus && c.page < |s.pages| && slot < |s.remote|
    && PageIdle(s, c.page) && !PageHeld(s, c.page) && SlotHasNoStore(s, slot)
  }

  /** Call i is a load of the slot into the page, on the async queue of the CPU. */
  predicate IsPrefetch(s: State, i: nat, c: Chance, slot: nat) {
    && i < |s.ops| && s.ops[i].kind == Load && s.ops[i].slot == slot && s.ops[i].page == c.page
    && s.ops[i].queue == QueueIndex(s.numcpus, c.cpu, ReadAsync)
  }

  /** The offsets below end that the window asks for: not the header, not the faulting slot. */
  predicate Asked(o: nat, first: nat, end: nat, slot: nat) {
    1 <= o && first <= o < end && o != slot
  }

  /** Fault f has dealt with its window up to end. at holds, for each offset asked for, the state
      in which that was decided. The loads it has begun are, in the order of their slots, those of
      exactly the offsets for which a page was to be had and a load could start. */
  ghost predicate WindowDone(s: State, f: nat, supply: map<nat, Chance>, at: map<nat, State>, first: nat, end: nat, slot: nat) {
    f < |s.faults| &&
    var w := s.faults[f].window;
    && (forall o: nat :: o in at <==> Asked(o, first, end, slot))
    && (forall k | 0 <= k < |w| :: w[k] < |s.ops| && Chosen(s, w[k], supply, at))
    && (forall j, k | 0 <= j < k < |w| :: s.ops[w[j]].slot < s.ops[w[k]].slot)
    && (forall o: nat | o in at && o in supply && CanPrefetch(at[o], supply[o], o) ::
          exists k :: 0 <= k < |w| && s.ops[w[k]].slot == o)
  }

  /** Call i loads an offset asked for, with its page and CPU, at a time when that was possible. */
  ghost predicate Chosen(s: State, i: nat, supply: map<nat, Chance>, at: map<nat, State>)
    requires i < |s.ops|
  {
    var o := s.ops[i].slot;
    o in at && o in supply && IsPrefetch(s, i, supply[o], o) && CanPrefetch(at[o], supply[o], o)
  }

  lemma WindowStable(s: State, t: State, f: nat, supply: map<nat, Chance>, at: map<nat, State>, first: nat, end: nat, slot: nat)
    requires WindowDone(s, f, supply, at, first, end, slot) && Rely(s, t, {}, {})
    requires f < |t.faults| && t.faults[f].window == s.faults[f].window
    ensures WindowDone(t, f, supply, at, first, end, slot)
  {
    var w := s.faults[f].window;
    forall k | 0 <= k < |w| ensures w[k] < |t.ops| && Chosen(t, w[k], supply, at) {
      assert Chosen(s, w[k], supply, at) && SameCall(s.ops[w[k]], t.ops[w[k]]);
    }
    assert forall k | 0 <= k < |w| :: t.ops[w[k]].slot == s.ops[w[k]].slot;
  }

  /** The offset was the faulting slot, or nothing could be loaded for it. */
  lemma WindowSkips(s: State, f: nat, supply: map<nat, Chance>, at: map<nat, State>, seen: State, first: nat, end: nat, slot: nat)
    requires WindowDone(s, f, supply, at, first, end, slot) && first <= end && 1 <= end
    requires end == slot || !(end in supply && CanPrefetch(seen, supply[end], end))
    ensures WindowDone(s, f, supply, if end == slot then at else at[end := seen], first, end + 1, slot)
  {
    var w, at' := s.faults[f].window, if end == slot then at else at[end := seen];
    forall k | 0 <= k < |w| ensures w[k] < |s.ops| && Chosen(s, w[k], supply, at') {
      assert Chosen(s, w[k], supply, at);
      assert s.ops[w[k]].slot != end;
    }
  }

  /** The loads begun so far are unchanged in a later state, one was added at the end. */
  ghost predicate OneMore(s: State, t: State, w: seq<nat>, i: nat) {
    && (forall k | 0 <= k < |w| :: w[k] < |s.ops| && w[k] < |t.ops| && SameCall(s.ops[w[k]], t.ops[w[k]]))
    && i < |t.ops| && t.numcpus == s.numcpus
  }

  lemma GrownChosen(s: State, t: State, w: seq<nat>, i: nat, supply: map<nat, Chance>, at: map<nat, State>, seen: State, end: nat)
    requires OneMore(s, t, w, i) && end !in at && end in supply && CanPrefetch(seen, supply[end], end)
    requires forall k | 0 <= k < |w| :: Chosen(s, w[k], supply, at)
    requires IsPrefetch(t, i, supply[end], end)
    ensures forall k | 0 <= k < |w + [i]| :: (w + [i])[k] < |t.ops| && Chosen(t, (w + [i])[k], supply, at[end := seen])
  {
    forall k | 0 <= k < |w + [i]| ensures (w + [i])[k] < |t.ops| && Chosen(t, (w + [i])[k], supply, at[end := seen]) {
      if k < |w| {
        assert Chosen(s, w[k], supply, at) && SameCall(s.ops[w[k]], t.ops[w[k]]);
        assert s.ops[w[k]].slot != end;
      }
    }
  }

  lemma GrownSlots(s: State, t: State, w: seq<nat>, i: nat, end: nat)
    requires OneMore(s, t, w, i) && t.ops[i].slot == end
    requires forall j, k | 0 <= j < k < |w| :: s.ops[w[j]].slot < s.ops[w[k]].slot
    requires forall k | 0 <= k < |w| :: s.ops[w[k]].slot < end
    ensures forall j, k | 0 <= j < k < |w + [i]| :: t.ops[(w + [i])[j]].slot < t.ops[(w + [i])[k]].slot
    ensures forall k | 0 <= k < |w| :: t.ops[(w + [i])[k]].slot == s.ops[w[k]].slot
  {
  }

  /** A load of the offset was begun. */
  lemma WindowGrows(s: State, t: State, f: nat, i: nat, supply: map<nat, Chance>, at: map<nat, State>, seen: State, first: nat, end: nat, slot: nat)
    requires WindowDone(s, f, supply, at, first, end, slot) && first <= end && 1 <= end && end != slot
    requires end in supply && CanPrefetch(seen, supply[end], end)
    requires Rely(s, t, {}, {}) && f < |t.faults| && t.faults[f].window == s.faults[f].window + [i]
    requires IsPrefetch(t, i, supply[end], end)
    ensures WindowDone(t, f, supply, at[end := seen], first, end + 1, slot)
  {
    var w, w', at' := s.faults[f].window, t.faults[f].window, at[end := seen];
    assert OneMore(s, t, w, i);
    forall k | 0 <= k < |w| ensures s.ops[w[k]].slot < end { assert Chosen(s, w[k], supply, at); }
    GrownChosen(s, t, w, i, supply, at, seen, end);
    GrownSlots(s, t, w, i, end);
    forall o: nat | o in at' && o in supply && CanPrefetch(at'[o], supply[o], o)
      ensures exists k :: 0 <= k < |w'| && t.ops[w'[k]].slot == o
    {
      assert o != end ==> o in at && at[o] == at'[o];
      GrownCovers(s, t, w, i, end, o);
    }
  }

  lemma GrownCovers(s: State, t: State, w: seq<nat>, i: nat, end: nat, o: nat)
    requires OneMore(s, t, w, i) && t.ops[i].slot == end
    requires o == end || exists k :: 0 <= k < |w| && s.ops[w[k]].slot == o
    ensures forall k | 0 <= k < |w + [i]| :: (w + [i])[k] < |t.ops|
    ensures exists k :: 0 <= k < |w + [i]| && t.ops[(w + [i])[k]].slot == o
  {
    var w' := w + [i];
    assert w'[|w|] == i;
    if o != end {
      var k :| 0 <= k < |w| && s.ops[w[k]].slot == o;
      assert w'[k] == w[k] && SameCall(s.ops[w[k]], t.ops[w[k]]);
    }
  }

  /** A window that was empty from the start ends where it began. */
  lemma WindowOver(s: State, f: nat, supply: map<nat, Chance>, at: map<nat, State>, first: nat, end: nat, end': nat, slot: nat)
    requires WindowDone(s, f, supply, at, first, end, slot) && (end == end' || (end' < end && end == first))
    ensures WindowDone(s, f, supply, at, first, end', slot)
  {
    assert forall o: nat :: Asked(o, first, end, slot) <==> Asked(o, first, end', slot);
  }

  /** The machine was in this state, not before its first from states. */
  ghost predicate Reached(past: seq<State>, from: nat, st: State) {
    exists p :: from <= p < |past| && past[p] == st
  }

  /** What the window's decisions saw are states that the machine has been in. */
  ghost predicate Witnessed(past: seq<State>, from: nat, at: map<nat, State>) {
    forall o | o in at :: Reached(past, from, at[o])
  }

  lemma WitnessLater(past: seq<State>, later: seq<State>, from: nat, from': nat, at: map<nat, State>)
    requires Witnessed(past, from, at) && past <= later && from' <= from
    ensures Witnessed(later, from', at)
  {
    forall x | x in at ensures Reached(later, from', at[x]) {
      var p :| from <= p < |past| && past[p] == at[x];
      assert later[p] == at[x];
    }
  }

  lemma WitnessMore(past: seq<State>, later: seq<State>, from: nat, at: map<nat, State>, o: nat, seen: State)
    requires Witnessed(past, from, at) && past <= later && from < |past| && Reached(later, |past| - 1, seen)
    ensures Witnessed(later, from, at[o := seen])
  {
    WitnessLater(past, later, from, from, at);
  }

  /** Nothing asked for yet. */
  lemma WindowStarts(s: State, f: nat, supply: map<nat, Chance>, first: nat, end: nat, slot: nat)
    requires f < |s.faults| && s.faults[f].window == [] && (end <= first || end <= 1)
    ensures WindowDone(s, f, supply, map[], first, end, slot)
  {
  }

  /** A page that was free to be allocated may then be loaded. */
  lemma AllocThenPrefetch(s: State, f: nat, here: nat, page: nat, slot: nat)
    requires Shape(s) && f < |s.faults| && MayContinue(s, s.faults[f])
    requires here < s.numcpus && page < |s.pages| && slot < |s.remote|
    requires PageIdle(s, page) && SlotHasNoStore(s, slot)
    ensures var t, a := Apply(s, AllocLocked(page)), FaultPrefetch(f, here, page, slot);
      Shape(t) && Enabled(t, a) && Disciplined(t, a)
  {
    ApplyKeepsShape(s, AllocLocked(page));
  }

  lemma PrefetchBegun(s: State, f: nat, c: Chance, offset: nat, cpu: nat, page: nat, slot: nat, own: Option<nat>)
    requires Shape(s) && MyFault(s, f, cpu, page, slot, own) && CanPrefetch(s, c, offset)
    requires Shape(Apply(s, AllocLocked(c.page)))
    requires Enabled(Apply(s, AllocLocked(c.page)), FaultPrefetch(f, c.cpu, c.page, offset))
    ensures var t := Apply(Apply(s, AllocLocked(c.page)), FaultPrefetch(f, c.cpu, c.page, offset));
      && Prefetching(t, f, |s.ops|, cpu, page, slot, own)
      && t.faults[f].window == s.faults[f].window + [|s.ops|]
      && t.ops[|s.ops|].pc == Checking && IsPrefetch(t, |s.ops|, c, offset)
  {
  }

  lemma NewFaultHoldsNothing(s: State, cpu: nat, page: nat)
    requires Shape(s) && cpu < s.numcpus && !PageHeld(s, page)
    ensures !PageHeld(Apply(s, FaultEnter(cpu)), page)
  {
    var t := Apply(s, FaultEnter(cpu));
    forall f | 0 <= f < |t.faults| ensures !Holds(t, f, page) {
      if f < |s.faults| { assert !Holds(s, f, page); }
    }
  }

  // ----- the states that a machine has been in

  /** One step in keeping with the kernel's rules leads from each state to the next. */
  ghost predicate Linked(past: seq<State>, k: nat)
    requires k + 1 < |past|
  {
    Shape(past[k]) && exists a :: Enabled(past[k], a) && Disciplined(past[k], a) && past[k + 1] == Apply(past[k], a)
  }

  ghost predicate History(s0: State, past: seq<State>) {
    |past| > 0 && Init(s0) && past[0] == s0 && forall k | 0 <= k < |past| - 1 :: Linked(past, k)
  }

  lemma HistoryExtend(s0: State, past: seq<State>, s: State, a: Action)
    requires History(s0, past) && past[|past| - 1] == s && Shape(s) && Enabled(s, a) && Disciplined(s, a)
    ensures History(s0, past + [Apply(s, a)]) && Shape(Apply(s, a)) && |Apply(s, a).remote| == |s.remote|
  {
    ApplyKeepsShape(s, a);
    var all := past + [Apply(s, a)];
    forall k | 0 <= k < |all| - 1 ensures Linked(all, k) {
      if k < |past| - 1 { assert Linked(past, k); }
    }
  }

  /** What is known of a state that such steps lead to. */
  ghost predicate Sound(init: seq<Contents>, s: State) {
    Coherent(init, s) && LogFaithful(s) && AllWired(s) && AllDelivered(s)
  }

  lemma {:induction false} HistoryFacts(s0: State, past: seq<State>, k: nat)
    requires History(s0, past) && k < |past|
    ensures Sound(s0.remote, past[k])
  {
    if k == 0 {
      assert Exec(s0, []) == Some(s0) && IsDisciplinedRun(s0, []);
      EveryRunCoherent(s0, []);
      EveryRunLogged(s0, []);
      EveryRunDelivers(s0, []);
    } else {
      HistoryFacts(s0, past, k - 1);
      assert Linked(past, k - 1);
      var a :| Enabled(past[k - 1], a) && Disciplined(past[k - 1], a) && past[k] == Apply(past[k - 1], a);
      StepKeepsSound(s0.remote, past[k - 1], a);
    }
  }

  lemma StepKeepsSound(init: seq<Contents>, s: State, a: Action)
    requires Sound(init, s) && Enabled(s, a) && Disciplined(s, a)
    ensures Sound(init, Apply(s, a))
  {
    StepKeepsCoherence(init, s, a);
    StepKeepsLog(s, a);
    StepKeepsWiring(s, a);
    StepKeepsDelivery(init, s, a);
  }

  class Machine {
    var s: State
    ghost const s0: State
    ghost var past: seq<State>

    constructor (s0: State)
      requires Init(s0)
      ensures s == this.s0 == s0 && past == [s0] && Valid()
    {
      s, this.s0, past := s0, s0, [s0];
    }

    /** The steps of all threads so far led here. */
    ghost predicate Valid()
      reads this
    {
      History(s0, past) && past[|past| - 1] == s && Shape(s) && |s.remote| == |s0.remote|
    }

    /** So everything shown of the state machine's runs holds. */
    lemma Facts()
      requires Valid()
      ensures Sound(s0.remote, s)
    {
      HistoryFacts(s0, past, |past| - 1);
    }

    /** One step of this thread. */
    method Do(a: Action)
      requires Valid() && Enabled(s, a) && Disciplined(s, a)
      modifies this
      ensures Valid() && s == Apply(old(s), a) && past == old(past) + [s]
    {
      HistoryExtend(s0, past, s, a);
      s := Apply(s, a);
      past := past + [s];
    }

    /** Any number of steps of everybody else. */
    method Interfere(ops: set<nat>, faults: set<nat>)
      requires Valid()
      modifies this
      ensures Valid() && old(past) <= past && Rely(old(s), s, ops, faults)
    {
      var n: nat :| n >= 0;
      while n > 0
        invariant Valid() && old(past) <= past && Rely(old(s), s, ops, faults)
      {
        var a: Action := *;
        if Enabled(s, a) && Disciplined(s, a) && ByOthers(a, ops, faults) {
          Facts();
          OthersKeepRely(s, a, ops, faults);
          RelyTransitive(old(s), s, Apply(s, a), ops, faults);
          Do(a);
        }
        n := n - 1;
      }
    }

    /** ib_process_cq_direct on q's completion queue: callbacks run, as they may at any time, and
        the number that this call ran comes back: some of the requests that completed meanwhile. */
    method ProcessCq(q: nat, ops: set<nat>, faults: set<nat>) returns (n: nat)
      requires Valid()
      modifies this
      ensures Valid() && old(past) <= past && Rely(old(s), s, ops, faults)
      ensures Completed(old(s), q) + n <= Completed(s, q)
    {
      var before := Completed(s, q);
      Interfere(ops, faults);
      CompletedGrows(old(s), s, ops, faults, q);
      n :| 0 <= n <= Completed(s, q) - before;
    }

    /** poll_target: until target completions were counted or the queue read as empty; what it
        counted are requests of the queue that completed during the call. */
    method PollTarget(q: nat, target: nat, spins: nat, ops: set<nat>, faults: set<nat>)
      returns (completed: nat, stuck: bool)
      requires Valid() && q < 3 * s.numcpus
      modifies this
      ensures Valid() && old(past) <= past && Rely(old(s), s, ops, faults)
      ensures stuck || completed >= target || s.pending[q] <= 0
      ensures Completed(old(s), q) + completed <= Completed(s, q)
    {
      completed, stuck := 0, false;
      var left := spins;
      while completed < target && s.pending[q] > 0
        invariant Valid() && old(past) <= past && Rely(old(s), s, ops, faults)
        invariant Completed(old(s), q) + completed <= Completed(s, q)
        decreases left
      {
        if left == 0 { return completed, true; }
        left := left - 1;
        ghost var before := s;
        var n := ProcessCq(q, ops, faults);
        RelyTransitive(old(s), before, s, ops, faults);
        completed := completed + n;
      }
    }

    /** drain_queue: returns only after reading the queue's pending counter as zero. */
    method DrainQueue(q: nat, spins: nat, ops: set<nat>, faults: set<nat>) returns (done: bool)
      requires Valid() && q < 3 * s.numcpus
      modifies this
      ensures Valid() && old(past) <= past && Rely(old(s), s, ops, faults)
      ensures done ==> s.pending[q] <= 0
    {
      var left := spins;
      while s.pending[q] > 0
        invariant Valid() && old(past) <= past && Rely(old(s), s, ops, faults)
        decreases left
      {
        if left == 0 { return false; }
        left := left - 1;
        ghost var before := s;
        var _ := ProcessCq(q, ops, faults);
        RelyTransitive(old(s), before, s, ops, faults);
      }
      done := true;
    }

    /** One step of call i by its own thread, then whatever others do. */
    method Proceed(i: nat, step: Step, ops: set<nat>, faults: set<nat>)
      requires Valid() && i in ops && i < |s.ops|
      requires step in {Map, Inc, PostOk} && StepEnabled(s.ops[i], step, s.pending[s.ops[i].queue])
      modifies this
      ensures Valid() && old(past) <= past && Rely(old(s), s, ops - {i}, faults)
      ensures i < |s.ops| && s.ops[i].pc == StepOp(old(s.ops[i]), step).pc
    {
      Facts();
      OthersKeepRely(s, Advance(i, step), ops - {i}, faults);
      Do(Advance(i, step));
      ghost var mid := s;
      Interfere(ops, faults);
      RelyTransitive(old(s), mid, s, ops - {i}, faults);
    }

    /** The back-pressure loop: returns only with pending read below 4088 for a write and 4096 for a
        read. If it had to wait, 2048 writes or 8 reads of the queue completed meanwhile, or the
        queue was seen empty. */
    method WaitForRoom(q: nat, kind: Kind, spins: nat, ops: set<nat>, faults: set<nat>)
      returns (done: bool, ghost low: State)
      requires Valid() && q < 3 * s.numcpus
      modifies this
      ensures Valid() && old(past) <= past && Rely(old(s), s, ops, faults)
      ensures done ==> s.pending[q] < if kind == Store then 4088 else 4096
      ensures done && old(s.pending[q]) < (if kind == Store then 4088 else 4096) ==> s == old(s)
      ensures done && old(s.pending[q]) >= (if kind == Store then 4088 else 4096) ==>
        || Completed(s, q) >= Completed(old(s), q) + (if kind == Store then 2048 else 8)
        || (Rely(old(s), low, ops, faults) && q < |low.pending| && low.pending[q] <= 0)
    {
      low := s;
      var left, waited := spins, false;
      while s.pending[q] >= Limit(kind)
        invariant Valid() && old(past) <= past && Rely(old(s), s, ops, faults) && Rely(old(s), low, ops, faults)
        invariant !waited ==> s == old(s)
        invariant waited ==> old(s.pending[q]) >= Limit(kind)
        invariant waited ==>
          || Completed(s, q) >= Completed(old(s), q) + (if kind == Store then 2048 else 8)
          || (q < |low.pending| && low.pending[q] <= 0)
        decreases left
      {
        if left == 0 { return false, low; }
        left := left - 1;
        ghost var before := s;
        var completed, stuck := PollTarget(q, if kind == Store then 2048 else 8, left, ops, faults);
        RelyTransitive(old(s), before, s, ops, faults);
        if stuck { return false, low; }
        CompletedGrows(old(s), before, ops, faults, q);
        if s.pending[q] <= 0 { low := s; }
        waited := true;
      }
      done := true;
    }

    /** write_queue_add and begin_read on a call that has just begun: wait out the back
        pressure, allocate and map the request, count it, post it. */
    method Submit(i: nat, spins: nat, ops: set<nat>, faults: set<nat>) returns (done: bool)
      requires Valid() && i in ops && i < |s.ops| && s.ops[i].pc == Checking
      modifies this
      ensures Valid() && old(past) <= past && Rely(old(s), s, ops - {i}, faults)
      ensures done ==> i < |s.ops| && s.ops[i].pc == if s.ops[i].kind == Store then Draining else Returned
    {
      ghost var low;
      done, low := WaitForRoom(s.ops[i].queue, s.ops[i].kind, spins, ops, faults);
      if done {
        ghost var before := s;
        PassCheck(i, ops, faults);
        ghost var passed := s;
        Post(i, ops, faults);
        RelyTransitive(before, passed, s, ops - {i}, faults);
        RelyTransitive(old(s), before, s, ops - {i}, faults);
      }
    }

    /** The check of pending succeeds. */
    method PassCheck(i: nat, ops: set<nat>, faults: set<nat>)
      requires Valid() && i in ops && i < |s.ops| && s.ops[i].pc == Checking
      requires s.pending[s.ops[i].queue] < Limit(s.ops[i].kind)
      modifies this
      ensures Valid() && old(past) <= past && Rely(old(s), s, ops - {i}, faults)
      ensures i < |s.ops| && s.ops[i].pc == Passed
    {
      Facts();
      OthersKeepRely(s, Advance(i, Pass), ops - {i}, faults);
      Do(Advance(i, Pass));
      ghost var mid := s;
      Interfere(ops, faults);
      RelyTransitive(old(s), mid, s, ops - {i}, faults);
    }

    /** get_req_for_page and sswap_rdma_post_rdma. */
    method Post(i: nat, ops: set<nat>, faults: set<nat>)
      requires Valid() && i in ops && i < |s.ops| && s.ops[i].pc == Passed
      modifies this
      ensures Valid() && old(past) <= past && Rely(old(s), s, ops - {i}, faults)
      ensures i < |s.ops| && s.ops[i].pc == if s.ops[i].kind == Store then Draining else Returned
    {
      Proceed(i, Map, ops, faults);
      ghost var mapped := s;
      Proceed(i, Inc, ops, faults);
      ghost var counted := s;
      RelyTransitive(old(s), mapped, counted, ops - {i}, faults);
      Proceed(i, PostOk, ops, faults);
      RelyTransitive(old(s), counted, s, ops - {i}, faults);
      assert SameCall(counted.ops[i], s.ops[i]);
    }

    /** sswap_rdma_write. When it returns, its request has completed, far memory holds the
        page's contents, and the DRAM backend would hold the same. */
    method Write(cpu: nat, page: nat, slot: nat, spins: nat) returns (ret: Option<int>)
      requires Valid() && cpu < s.numcpus && page < |s.pages| && slot < |s.remote|
      requires PageIdle(s, page) && SlotIdle(s, slot)
      modifies this
      ensures Valid() && slot < |s.remote|
      ensures ret.Some? ==>
        var i, data := |old(s.ops)|, old(s.pages[page].contents);
        && ret == Some(0)
        && i < |s.ops| && s.ops[i].pc == Returned && Retired(s.ops[i])
        && s.ops[i].queue == QueueIndex(s.numcpus, cpu, WriteSync) && s.ops[i].page == page
        && s.log != [] && s.log[|s.log| - 1] == Stored(i, slot, data)
        && s.remote[slot] == data && Replay(s0.remote, s.log)[slot] == data
    {
      var i := |s.ops|;
      ghost var data := s.pages[page].contents;
      Do(StartStore(cpu, page, slot));
      ghost var before := s;
      assert s.ops[i].data == data;
      var done := Submit(i, spins, {i}, {});
      if !done { return None; }
      assert SameCall(before.ops[i], s.ops[i]);
      before := s;
      done := DrainQueue(s.ops[i].queue, spins, {i}, {});
      if !done { return None; }
      assert SameCall(before.ops[i], s.ops[i]);
      Finish(i);
      return Some(0);
    }

    /** A store that has drained its queue returns. */
    method Finish(i: nat)
      requires Valid() && i < |s.ops| && s.ops[i].pc == Draining && s.pending[s.ops[i].queue] <= 0
      modifies this
      ensures Valid() && s.ops == old(s.ops[i := s.ops[i].(pc := Returned)]) && Retired(s.ops[i])
      ensures s.numcpus == old(s.numcpus)
      ensures s.log == old(s.log) + [Stored(i, s.ops[i].slot, s.ops[i].data)]
      ensures s.ops[i].slot < |s.remote| && s.remote[s.ops[i].slot] == s.ops[i].data
      ensures Replay(s0.remote, s.log)[s.ops[i].slot] == s.ops[i].data
    {
      Facts();
      StoreReady(s0.remote, s, i);
      AcceptStore(s0.remote, s.log, i, s.ops[i].slot, s.ops[i].data);
      Do(Advance(i, ReturnStore));
    }

    /** sswap_rdma_read_sync and sswap_rdma_read_async: return once the load is posted; its page
        stays locked until it has been delivered. */
    method Read(cpu: nat, qtype: QpType, page: nat, slot: nat, spins: nat) returns (ret: Option<int>)
      requires Valid() && !qtype.WriteSync? && LoadAllowed(s, cpu, page, slot) && MayLoad(s, page, slot)
      modifies this
      ensures Valid()
      ensures ret.Some? ==>
        var i := |old(s.ops)|;
        && ret == Some(0) && i < |s.ops| && s.ops[i].pc == Returned && s.ops[i].kind == Load
        && s.ops[i].page == page && s.ops[i].slot == slot
        && s.ops[i].queue == QueueIndex(s.numcpus, cpu, qtype)
        && (UnlockDone(s.ops[i]) || s.pages[page].locked)
    {
      var i := |s.ops|;
      Do(StartLoad(cpu, qtype, page, slot));
      ghost var before := s;
      var done := Submit(i, spins, {i}, {});
      if !done { return None; }
      assert SameCall(before.ops[i], s.ops[i]);
      Facts();
      assert Active(s.ops[i]) ==> PageRight(s.ops[i], s.pages[page], s.remote[slot]);
      return Some(0);
    }

    /** sswap_rdma_poll_load: afterwards no load of that CPU's sync queue is outstanding. */
    method PollLoad(cpu: nat, spins: nat, ops: set<nat>, faults: set<nat>) returns (done: bool)
      requires Valid() && cpu < s.numcpus
      modifies this
      ensures Valid() && old(past) <= past && Rely(old(s), s, ops, faults)
      ensures done ==> s.pending[QueueIndex(s.numcpus, cpu, ReadSync)] <= 0
      ensures done ==> forall i | 0 <= i < |s.ops| && s.ops[i].queue == QueueIndex(s.numcpus, cpu, ReadSync) ::
        !InFlight(s.ops[i])
    {
      done := DrainQueue(QueueIndex(s.numcpus, cpu, ReadSync), spins, ops, faults);
      if done {
        Facts();
        forall i | 0 <= i < |s.ops| && s.ops[i].queue == QueueIndex(s.numcpus, cpu, ReadSync)
          ensures !InFlight(s.ops[i])
        {
          NothingPending(s, i);
        }
      }
    }

    /** read_swap_cache_async for one slot of the window: nothing if no page can be had for it or
        the load cannot start, else an async load on the CPU the thread is on now. seen is the
        state in which that is decided. */
    method Prefetch(f: nat, offset: nat, supply: map<nat, Chance>, spins: nat,
                    ghost cpu: nat, ghost page: nat, ghost slot: nat, ghost own: Option<nat>)
      returns (done: bool, ghost seen: State)
      requires Valid() && MyFault(s, f, cpu, page, slot, own)
      modifies this
      ensures Valid() && old(past) <= past && Reached(past, |old(past)| - 1, seen) && Rely(old(s), s, {}, {})
      ensures done ==> MyFault(s, f, cpu, page, slot, own)
      ensures done && !(offset in supply && CanPrefetch(seen, supply[offset], offset)) ==>
        s == seen && s.faults[f].window == old(s.faults[f].window)
      ensures done && offset in supply && CanPrefetch(seen, supply[offset], offset) ==>
        && s.faults[f].window == old(s.faults[f].window) + [|seen.ops|]
        && IsPrefetch(s, |seen.ops|, supply[offset], offset)
    {
      Interfere(CallsOf(s.faults[f]), {f});
      MyFaultStable(old(s), s, f, cpu, page, slot, own);
      seen := s;
      ghost var place := |past| - 1;
      assert past[place] == seen;
      if offset in supply && CanPrefetch(s, supply[offset], offset) {
        done := IssuePrefetch(f, supply[offset], offset, spins, cpu, page, slot, own);
        RelyTransitive(old(s), seen, s, {}, {});
        assert past[place] == seen;
      } else {
        done := true;
      }
    }

    /** swap_readpage on a page just allocated for the slot. */
    method IssuePrefetch(f: nat, c: Chance, offset: nat, spins: nat,
                         ghost cpu: nat, ghost page: nat, ghost slot: nat, ghost own: Option<nat>)
      returns (done: bool)
      requires Valid() && MyFault(s, f, cpu, page, slot, own) && CanPrefetch(s, c, offset)
      modifies this
      ensures Valid() && old(past) <= past && Rely(old(s), s, {}, {})
      ensures f < |s.faults| && s.faults[f].window == old(s.faults[f].window) + [|old(s.ops)|]
      ensures IsPrefetch(s, |old(s.ops)|, c, offset)
      ensures done ==> MyFault(s, f, cpu, page, slot, own)
    {
      var i := |s.ops|;
      StartPrefetch(f, c, offset, cpu, page, slot, own);
      ghost var before := s;
      done := Submit(i, spins, CallsOf(s.faults[f]), {f});
      RelyTransitive(old(s), before, s, {}, {});
      assert SameCall(before.ops[i], s.ops[i]);
      if done {
        PrefetchDone(before, s, f, i, cpu, page, slot, own);
      }
    }

    method StartPrefetch(f: nat, c: Chance, offset: nat,
                         ghost cpu: nat, ghost page: nat, ghost slot: nat, ghost own: Option<nat>)
      requires Valid() && MyFault(s, f, cpu, page, slot, own) && CanPrefetch(s, c, offset)
      modifies this
      ensures Valid() && old(past) <= past && Rely(old(s), s, {}, {})
      ensures Prefetching(s, f, |old(s.ops)|, cpu, page, slot, own)
      ensures s.faults[f].window == old(s.faults[f].window) + [|old(s.ops)|]
      ensures s.ops[|old(s.ops)|].pc == Checking && IsPrefetch(s, |old(s.ops)|, c, offset)
    {
      AllocThenPrefetch(s, f, c.cpu, c.page, offset);
      PrefetchBegun(s, f, c, offset, cpu, page, slot, own);
      DoForOthers(AllocLocked(c.page));
      ghost var mid := s;
      DoForOthers(FaultPrefetch(f, c.cpu, c.page, offset));
      RelyTransitive(old(s), mid, s, {}, {});
    }

    /** One step, as other threads see it. */
    method DoForOthers(a: Action)
      requires Valid() && Enabled(s, a) && Disciplined(s, a)
      modifies this
      ensures Valid() && s == Apply(old(s), a) && past == old(past) + [s] && Rely(old(s), s, {}, {})
    {
      Facts();
      OthersKeepRely(s, a, {}, {});
      Do(a);
    }

    /** read_swap_cache_sync with preemption off: the load, if one is needed, goes to the sync
        queue of the CPU that the fault has captured. */
    method ReadSwapCacheSync(cpu: nat, page: nat, slot: nat, cached: bool, spins: nat)
      returns (done: bool, f: nat, ghost own: Option<nat>)
      requires Valid() && cpu < s.numcpus && page < |s.pages| && slot < |s.remote|
      requires !cached ==> PageIdle(s, page) && !PageHeld(s, page) && SlotHasNoStore(s, slot)
      modifies this
      ensures Valid() && old(past) <= past && s.numcpus == old(s.numcpus) && |s.pages| == old(|s.pages|)
      ensures own == if cached then None else Some(|old(s.ops)|)
      ensures done ==> MyFault(s, f, cpu, page, slot, own) && s.faults[f].window == []
    {
      f := |s.faults|;
      var i := |s.ops|;
      own := if cached then None else Some(i);
      done := true;
      Do(FaultEnter(cpu));
      if cached {
        Do(FaultHit(f, page));
      } else {
        NewFaultHoldsNothing(old(s), cpu, page);
        IssueFault(f, page, slot);
        done := Submit(i, spins, {i}, {f});
      }
    }

    /** swap_readpage_sync on a page just allocated for the slot, up to the call of the driver. */
    method IssueFault(f: nat, page: nat, slot: nat)
      requires Valid() && f < |s.faults| && s.faults[f].stage == Entered && s.faults[f].window == []
      requires s.faults[f].cpu < s.numcpus && page < |s.pages| && slot < |s.remote|
      requires PageIdle(s, page) && !PageHeld(s, page) && SlotHasNoStore(s, slot)
      modifies this
      ensures Valid() && old(past) <= past && s.numcpus == old(s.numcpus) && |s.pages| == old(|s.pages|)
      ensures s.faults == old(s.faults[f := s.faults[f].(page := Some(page), own := Some(|s.ops|), stage := Ahead)])
      ensures |s.ops| == old(|s.ops|) + 1
      ensures s.ops[old(|s.ops|)] == LoadOp(s, s.faults[f].cpu, ReadSync, page, slot)
    {
      Do(AllocLocked(page));
      Do(FaultIssue(f, page, slot));
    }

    /** The readahead loop. When it is done, it has asked for every slot from first to last but the
        header and the faulting one, and begun an async load, in the order of the slots, for
        exactly those for which a page was to be had and a load could start. */
    method ReadWindow(f: nat, first: nat, last: nat, supply: map<nat, Chance>, spins: nat, slot: nat,
                      ghost cpu: nat, ghost page: nat, ghost own: Option<nat>)
      returns (done: bool, ghost at: map<nat, State>)
      requires Valid() && MyFault(s, f, cpu, page, slot, own) && s.faults[f].window == []
      modifies this
      ensures Valid() && old(past) <= past && |s.pages| == old(|s.pages|) && Witnessed(past, |old(past)| - 1, at)
      ensures done ==> MyFault(s, f, cpu, page, slot, own) && WindowDone(s, f, supply, at, first, last + 1, slot)
    {
      var start := if first == 0 then 1 else first;
      WindowStarts(s, f, supply, first, start, slot);
      ghost var end;
      done, end, at := ReadSlots(f, first, start, last, supply, spins, slot, cpu, page, own);
      if done { WindowOver(s, f, supply, at, first, end, last + 1, slot); }
    }

    /** The loop itself, from start on. */
    method ReadSlots(f: nat, ghost first: nat, start: nat, last: nat, supply: map<nat, Chance>, spins: nat, slot: nat,
                     ghost cpu: nat, ghost page: nat, ghost own: Option<nat>)
      returns (done: bool, ghost end: nat, ghost at: map<nat, State>)
      requires Valid() && MyFault(s, f, cpu, page, slot, own) && first <= start && 1 <= start
      requires WindowDone(s, f, supply, map[], first, start, slot)
      modifies this
      ensures Valid() && old(past) <= past && |s.pages| == old(|s.pages|) && Witnessed(past, |old(past)| - 1, at)
      ensures done ==> MyFault(s, f, cpu, page, slot, own) && WindowDone(s, f, supply, at, first, end, slot)
      ensures end == if start <= last then last + 1 else start
    {
      at := map[];
      end := if start <= last then last + 1 else start;
      var offset := start;
      while offset <= last
        invariant start <= offset && (offset <= last + 1 || offset == start)
        invariant Valid() && old(past) <= past && |s.pages| == old(|s.pages|) && Witnessed(past, |old(past)| - 1, at)
        invariant MyFault(s, f, cpu, page, slot, own) && WindowDone(s, f, supply, at, first, offset, slot)
        decreases last + 1 - offset
      {
        done, at := Round(f, first, offset, supply, spins, slot, |old(past)| - 1, at, cpu, page, own);
        if !done { return; }
        offset := offset + 1;
      }
      done := true;
    }

    /** One round of it: the faulting slot is passed over, any other asked for. */
    method Round(f: nat, ghost first: nat, offset: nat, supply: map<nat, Chance>, spins: nat, slot: nat,
                 ghost from: nat, ghost at: map<nat, State>, ghost cpu: nat, ghost page: nat, ghost own: Option<nat>)
      returns (done: bool, ghost at': map<nat, State>)
      requires Valid() && from < |past| && Witnessed(past, from, at) && first <= offset && 1 <= offset
      requires MyFault(s, f, cpu, page, slot, own) && WindowDone(s, f, supply, at, first, offset, slot)
      modifies this
      ensures Valid() && old(past) <= past && |s.pages| == old(|s.pages|) && Witnessed(past, from, at')
      ensures done ==> MyFault(s, f, cpu, page, slot, own) && WindowDone(s, f, supply, at', first, offset + 1, slot)
    {
      done, at' := true, at;
      if offset == slot {
        WindowSkips(s, f, supply, at, s, first, offset, slot);
      } else {
        ghost var before, seen := past, s;
        done, seen := Ask(f, first, offset, supply, spins, at, cpu, page, slot, own);
        WitnessMore(before, past, from, at, offset, seen);
        at' := at[offset := seen];
      }
    }

    /** Ask for one slot. */
    method Ask(f: nat, ghost first: nat, offset: nat, supply: map<nat, Chance>, spins: nat, ghost at: map<nat, State>,
               ghost cpu: nat, ghost page: nat, ghost slot: nat, ghost own: Option<nat>)
      returns (done: bool, ghost seen: State)
      requires Valid() && MyFault(s, f, cpu, page, slot, own) && first <= offset && 1 <= offset && offset != slot
      requires WindowDone(s, f, supply, at, first, offset, slot)
      modifies this
      ensures Valid() && old(past) <= past && Reached(past, |old(past)| - 1, seen) && Rely(old(s), s, {}, {})
      ensures done ==> MyFault(s, f, cpu, page, slot, own)
      ensures done ==> WindowDone(s, f, supply, at[offset := seen], first, offset + 1, slot)
    {
      ghost var before := s;
      done, seen := Prefetch(f, offset, supply, spins, cpu, page, slot, own);
      if done {
        if offset in supply && CanPrefetch(seen, supply[offset], offset) {
          WindowGrows(before, s, f, |seen.ops|, supply, at, seen, first, offset, slot);
        } else {
          WindowStable(before, s, f, supply, at, first, offset, slot);
          WindowSkips(s, f, supply, at, seen, first, offset, slot);
        }
      }
    }

    /** swapin_readahead. A fresh page for the faulting slot is read on the captured CPU's sync
        queue; each other slot of the window for which a page is to be had and a load can start is
        prefetched on the async queue of the CPU the thread runs on by then; the captured CPU's
        sync queue is drained last. On return a page read by this call is up to date and unlocked. */
    method SwapinReadahead(cpu: nat, page: nat, slot: nat, cached: bool, first: nat, last: nat,
                           supply: map<nat, Chance>, spins: nat)
      returns (ret: Option<nat>, ghost f: nat, ghost at: map<nat, State>)
      requires Valid() && cpu < s.numcpus && page < |s.pages| && slot < |s.remote|
      requires !cached ==> PageIdle(s, page) && !PageHeld(s, page) && SlotHasNoStore(s, slot)
      modifies this
      ensures Valid()
      ensures ret.Some? ==> ret == Some(page) && page < |s.pages|
      ensures ret.Some? && !cached ==>
        && s.pages[page].uptodate && !s.pages[page].locked
        && |old(s.ops)| < |s.ops| && Retired(s.ops[|old(s.ops)|])
        && s.ops[|old(s.ops)|].slot == slot && s.ops[|old(s.ops)|].page == page
        && s.ops[|old(s.ops)|].queue == QueueIndex(s.numcpus, cpu, ReadSync)
      ensures ret.Some? ==>
        WindowDone(s, f, supply, at, first, last + 1, slot) && Witnessed(past, |old(past)| - 1, at)
    {
      var done, fault;
      ghost var own;
      at := map[];
      done, fault, own := ReadSwapCacheSync(cpu, page, slot, cached, spins);
      f := fault;
      if !done { return None, f, at; }
      ghost var from := |past| - 1;
      done, at := ReadWindow(fault, first, last, supply, spins, slot, cpu, page, own);
      if !done { return None, f, at; }
      ghost var read := past;
      done := FinishFault(fault, cpu, page, slot, first, last, supply, at, own, spins);
      if !done { return None, f, at; }
      WitnessLater(read, past, from, |old(past)| - 1, at);
      return Some(page), f, at;
    }

    /** The end of it: drain the captured CPU's sync queue and return. */
    method FinishFault(f: nat, cpu: nat, ghost page: nat, ghost slot: nat, ghost first: nat, ghost last: nat,
                       ghost supply: map<nat, Chance>, ghost at: map<nat, State>, ghost own: Option<nat>, spins: nat)
      returns (done: bool)
      requires Valid() && cpu < s.numcpus && page < |s.pages|
      requires MyFault(s, f, cpu, page, slot, own) && WindowDone(s, f, supply, at, first, last + 1, slot)
      modifies this
      ensures Valid() && old(past) <= past && page < |s.pages|
      ensures done ==> WindowDone(s, f, supply, at, first, last + 1, slot)
      ensures done && own.Some? ==>
        && s.pages[page].uptodate && !s.pages[page].locked
        && own.value < |s.ops| && Retired(s.ops[own.value])
        && s.ops[own.value].slot == slot && s.ops[own.value].page == page
        && s.ops[own.value].queue == QueueIndex(s.numcpus, cpu, ReadSync)
    {
      ghost var before := s;
      done := PollLoad(cpu, spins, CallsOf(s.faults[f]), {f});
      if done {
        MyFaultStable(before, s, f, cpu, page, slot, own);
        WindowStable(before, s, f, supply, at, first, last + 1, slot);
        Facts();
        if own.Some? {
          OwnLoadReady(s, f, own.value);
          assert Wired(s, s.faults[f]);
        }
        before := s;
        OthersKeepRely(s, FaultReturn(f), {}, {});
        Do(FaultReturn(f));
        WindowStable(before, s, f, supply, at, first, last + 1, slot);
      }
    }
  }
}
