/** The asynchronous page store as a state machine. Every step is one atomic action of the
    driver, of the NIC, of a completion callback, of the fault path, or of the rest of the
    kernel. Steps of different CPUs interleave freely and the NIC executes posted work in
    any order (code/drivers/fastswap_rdma.c, code/kernel/kernel.patch). */
module PageStore {
  import opened Wrappers
  import opened Addressing
  import opened QueueTable

  const QP_MAX_SEND_WR: int := 4096

  datatype Kind = Load | Store

  /** Where the thread that called write_queue_add or begin_read stands. */
  datatype Pc =
    | Checking   // in the back-pressure loop
    | Passed     // read pending below the limit, request not yet allocated
    | Mapped     // request allocated and DMA-mapped, pending not yet incremented
    | Counted    // pending incremented, ib_post_send not yet called
    | Draining   // store only: posted, in drain_queue
    | Returned   // the call returned 0
    | Failed     // ib_post_send refused: BUG_ON for a store, an error return for a load

  /** How far the request itself has come. */
  datatype Phase =
    | NoReq | Ready
    | Posted       // owned by the NIC
    | Executed     // a completion is waiting in the completion queue
    | Unmapped | Uptodated | Unlocked | Decremented | Freed   // the callback, statement by statement
    | Refused      // never reached the NIC

  /** One call of write_queue_add or begin_read together with its request. The three
      counters record how often the request was unmapped and freed and its page unlocked. */
  datatype Op = Op(kind: Kind, queue: nat, page: nat, slot: nat, data: Contents,
                   pc: Pc, phase: Phase, unmaps: nat, frees: nat, unlocks: nat)

  datatype Page = Page(locked: bool, uptodate: bool, contents: Contents)

  datatype Stage = Entered | Ahead | Left

  /** One swapin_readahead: the captured CPU, the page it will return, the load it issued for
      that page (if the page was not already in the swap cache), and the loads it has begun for
      the rest of its window. */
  datatype Fault = Fault(cpu: nat, page: Option<nat>, own: Option<nat>, window: seq<nat>, stage: Stage)

  /** What a client of the store observes, with the op it belongs to: a store call returned,
      a load's page was unlocked with these contents. */
  datatype Event =
    | Stored(op: nat, slot: nat, data: Contents)
    | Loaded(op: nat, slot: nat, data: Contents)

  datatype State = State(numcpus: nat, pending: seq<int>, ops: seq<Op>, pages: seq<Page>,
                         remote: seq<Contents>, faults: seq<Fault>, log: seq<Event>)

  /** The steps one call and its request go through. */
  datatype Step =
    // the calling thread
    | Pass | Map | Inc | PostOk | PostRefused | ReturnStore
    // the NIC, with a good or a bad completion status
    | Execute | ExecuteError
    // the completion callback, statement by statement
    | Unmap | SetUptodate | Unlock | Dec | Free

  datatype Action =
    // the rest of the kernel
    | CpuWrite(page: nat, data: Contents)
    | AllocLocked(page: nat)
    // a driver call begins
    | StartStore(cpu: nat, page: nat, slot: nat)
    | StartLoad(cpu: nat, qtype: QpType, page: nat, slot: nat)
    // a call, its request or its callback moves on
    | Advance(i: nat, step: Step)
    // swapin_readahead
    | FaultEnter(cpu: nat)
    | FaultIssue(f: nat, page: nat, slot: nat)
    | FaultHit(f: nat, page: nat)
    | FaultPrefetch(f: nat, cpu: nat, page: nat, slot: nat)
    | FaultReturn(f: nat)

  function KindOf(qtype: QpType): Kind {
    if qtype.WriteSync? then Store else Load
  }

  predicate Shape(s: State) {
    && |s.pending| == 3 * s.numcpus
    && (forall i | 0 <= i < |s.ops| ::
          && s.ops[i].queue < |s.pending|
          && s.ops[i].page < |s.pages|
          && s.ops[i].slot < |s.remote|
          && s.ops[i].kind == KindOf(QueueType(s.numcpus, s.ops[i].queue)))
    && (forall f | 0 <= f < |s.faults| ::
          && s.faults[f].cpu < s.numcpus
          && (s.faults[f].own.Some? ==> s.faults[f].own.value < |s.ops|)
          && (forall k | 0 <= k < |s.faults[f].window| :: s.faults[f].window[k] < |s.ops|))
  }

  /** The threshold each back-pressure loop waits for: QP_MAX_SEND_WR - 8 for writes,
      QP_MAX_SEND_WR for reads. */
  function Limit(kind: Kind): int {
    if kind == Store then QP_MAX_SEND_WR - 8 else QP_MAX_SEND_WR
  }

  function NewOp(kind: Kind, queue: nat, page: nat, slot: nat, data: Contents): Op {
    Op(kind, queue, page, slot, data, Checking, NoReq, 0, 0, 0)
  }

  /** What sswap_rdma_read_async and sswap_rdma_read_sync demand of the page
      (VM_BUG_ON_PAGE), on a CPU and a slot that exist. */
  predicate LoadAllowed(s: State, cpu: nat, page: nat, slot: nat) {
    && cpu < s.numcpus && page < |s.pages| && slot < |s.remote|
    && s.pages[page].locked && !s.pages[page].uptodate
  }

  /** The call that op i belongs to has come back to its caller. */
  predicate CallBack(s: State, i: nat) {
    i < |s.ops| && (s.ops[i].pc == Returned || s.ops[i].pc == Failed)
  }

  /** The guard of each step, given the value of pending that the caller's atomic_read returns. */
  predicate StepEnabled(op: Op, step: Step, pending: int) {
    match step
    case Pass => op.pc == Checking && pending < Limit(op.kind)
    case Map => op.pc == Passed
    case Inc => op.pc == Mapped
    case PostOk => op.pc == Counted
    case PostRefused => op.pc == Counted
    case ReturnStore => op.pc == Draining && pending <= 0
    case Execute => op.phase == Posted
    case ExecuteError => op.phase == Posted
    case Unmap => op.phase == Executed
    case SetUptodate => op.phase == Unmapped && op.kind == Load
    case Unlock => op.phase == Uptodated
    case Dec => op.phase == (if op.kind == Store then Unmapped else Unlocked)
    case Free => op.phase == Decremented
  }

  /** What a step does to the call and its request. */
  function StepOp(op: Op, step: Step): Op {
    match step
    case Pass => op.(pc := Passed)
    case Map => op.(pc := Mapped, phase := Ready)
    case Inc => op.(pc := Counted)
    case PostOk => op.(pc := if op.kind == Store then Draining else Returned, phase := Posted)
    case PostRefused => op.(pc := Failed, phase := Refused)
    case ReturnStore => op.(pc := Returned)
    case Execute => op.(phase := Executed)
    case ExecuteError => op.(phase := Executed)
    case Unmap => op.(phase := Unmapped, unmaps := op.unmaps + 1)
    case SetUptodate => op.(phase := Uptodated)
    case Unlock => op.(phase := Unlocked, unlocks := op.unlocks + 1)
    case Dec => op.(phase := Decremented)
    case Free => op.(phase := Freed, frees := op.frees + 1)
  }

  /** What a step adds to the queue's pending counter. */
  function StepPending(step: Step): int {
    if step == Inc then 1 else if step == Dec then -1 else 0
  }

  /** What a step does to the op's page. */
  function StepPage(page: Page, op: Op, step: Step, slotContents: Contents): Page {
    match step
    case Execute => if op.kind == Load then page.(contents := slotContents) else page
    case SetUptodate => page.(uptodate := true)
    case Unlock => page.(locked := false)
    case _ => page
  }

  /** What a step does to the op's slot in far memory. */
  function StepSlot(slotContents: Contents, op: Op, step: Step, page: Page): Contents {
    if step == Execute && op.kind == Store then page.contents else slotContents
  }

  /** What a step lets the client observe. */
  function StepLog(i: nat, op: Op, step: Step, page: Page): seq<Event> {
    if step == ReturnStore then [Stored(i, op.slot, op.data)]
    else if step == Unlock then [Loaded(i, op.slot, page.contents)]
    else []
  }

  /** The guards of the source: nothing here restricts how clients use pages and slots. */
  predicate Enabled(s: State, a: Action)
    requires Shape(s)
  {
    match a
    case CpuWrite(page, _) => page < |s.pages|
    case AllocLocked(page) => page < |s.pages|
    case StartStore(cpu, page, slot) => cpu < s.numcpus && page < |s.pages| && slot < |s.remote|
    case StartLoad(cpu, qtype, page, slot) => !qtype.WriteSync? && LoadAllowed(s, cpu, page, slot)
    case Advance(i, step) =>
      i < |s.ops| && StepEnabled(s.ops[i], step, s.pending[s.ops[i].queue])
    case FaultEnter(cpu) => cpu < s.numcpus
    case FaultIssue(f, page, slot) =>
      f < |s.faults| && s.faults[f].stage == Entered && LoadAllowed(s, s.faults[f].cpu, page, slot)
    case FaultHit(f, page) => f < |s.faults| && s.faults[f].stage == Entered && page < |s.pages|
    case FaultPrefetch(f, cpu, page, slot) =>
      f < |s.faults| && MayContinue(s, s.faults[f]) && LoadAllowed(s, cpu, page, slot)
    case FaultReturn(f) =>
      && f < |s.faults| && MayContinue(s, s.faults[f])
      && s.pending[QueueIndex(s.numcpus, s.faults[f].cpu, ReadSync)] <= 0
  }

  /** Program order in swapin_readahead: its own load was posted without error (swap_readpage_sync
      has BUG_ON(frontswap_load(page))), and its latest prefetch call is back. */
  predicate MayContinue(s: State, f: Fault) {
    && f.stage == Ahead
    && (f.own.Some? ==> f.own.value < |s.ops| && s.ops[f.own.value].pc == Returned)
    && (f.window != [] ==> CallBack(s, f.window[|f.window| - 1]))
  }

  function AddOp(s: State, op: Op): State {
    s.(ops := s.ops + [op])
  }

  function LoadOp(s: State, cpu: nat, qtype: QpType, page: nat, slot: nat): Op {
    NewOp(Load, QueueIndex(s.numcpus, cpu, qtype), page, slot, [])
  }

  function AdvanceOp(s: State, i: nat, step: Step): State
    requires Shape(s) && i < |s.ops|
  {
    var op := s.ops[i];
    var page, slotContents := s.pages[op.page], s.remote[op.slot];
    s.(ops := s.ops[i := StepOp(op, step)],
       pending := s.pending[op.queue := s.pending[op.queue] + StepPending(step)],
       pages := s.pages[op.page := StepPage(page, op, step, slotContents)],
       remote := s.remote[op.slot := StepSlot(slotContents, op, step, page)],
       log := s.log + StepLog(i, op, step, page))
  }

  function Apply(s: State, a: Action): State
    requires Shape(s) && Enabled(s, a)
  {
    match a
    case CpuWrite(page, data) => s.(pages := s.pages[page := s.pages[page].(contents := data)])
    case AllocLocked(page) =>
      s.(pages := s.pages[page := s.pages[page].(locked := true, uptodate := false)])
    case StartStore(cpu, page, slot) =>
      AddOp(s, NewOp(Store, QueueIndex(s.numcpus, cpu, WriteSync), page, slot, s.pages[page].contents))
    case StartLoad(cpu, qtype, page, slot) => AddOp(s, LoadOp(s, cpu, qtype, page, slot))
    case Advance(i, step) => AdvanceOp(s, i, step)
    case FaultEnter(cpu) => s.(faults := s.faults + [Fault(cpu, None, None, [], Entered)])
    case FaultIssue(f, page, slot) =>
      AddOp(s, LoadOp(s, s.faults[f].cpu, ReadSync, page, slot))
        .(faults := s.faults[f := s.faults[f].(page := Some(page), own := Some(|s.ops|), stage := Ahead)])
    case FaultHit(f, page) =>
      s.(faults := s.faults[f := s.faults[f].(page := Some(page), stage := Ahead)])
    case FaultPrefetch(f, cpu, page, slot) =>
      AddOp(s, LoadOp(s, cpu, ReadAsync, page, slot))
        .(faults := s.faults[f := s.faults[f].(window := s.faults[f].window + [|s.ops|])])
    case FaultReturn(f) => s.(faults := s.faults[f := s.faults[f].(stage := Left)])
  }

  ghost predicate Init(s: State) {
    && |s.pending| == 3 * s.numcpus
    && (forall q | 0 <= q < |s.pending| :: s.pending[q] == 0)
    && s.ops == [] && s.faults == [] && s.log == []
    && (forall p | 0 <= p < |s.pages| :: !s.pages[p].locked)
  }

  /** The fields of an op that no step changes. */
  predicate SameCall(x: Op, y: Op) {
    x.kind == y.kind && x.queue == y.queue && x.page == y.page && x.slot == y.slot && x.data == y.data
  }

  lemma AdvanceKeepsShape(s: State, i: nat, step: Step)
    requires Shape(s) && i < |s.ops|
    ensures Shape(AdvanceOp(s, i, step))
  {
  }

  lemma NewOpKeepsShape(s: State, t: State, cpu: nat, qtype: QpType, op: Op)
    requires Shape(s) && cpu < s.numcpus && t.ops == s.ops + [op]
    requires op.queue == QueueIndex(s.numcpus, cpu, qtype) && op.kind == KindOf(qtype)
    requires op.page < |s.pages| && op.slot < |s.remote|
    requires t.numcpus == s.numcpus && t.pending == s.pending
    requires t.pages == s.pages && t.remote == s.remote && |t.faults| == |s.faults|
    requires forall f | 0 <= f < |s.faults| ::
      && t.faults[f].cpu == s.faults[f].cpu
      && (t.faults[f].own == s.faults[f].own || t.faults[f].own == Some(|s.ops|))
      && (t.faults[f].window == s.faults[f].window || t.faults[f].window == s.faults[f].window + [|s.ops|])
    ensures Shape(t)
  {
    QueueIndexIsBijection(s.numcpus);
    assert op.kind == KindOf(QueueType(s.numcpus, op.queue));
  }

  lemma ApplyKeepsShape(s: State, a: Action)
    requires Shape(s) && Enabled(s, a)
    ensures Shape(Apply(s, a))
  {
    var t := Apply(s, a);
    match a
    case StartStore(cpu, page, slot) => NewOpKeepsShape(s, t, cpu, WriteSync, t.ops[|s.ops|]);
    case StartLoad(cpu, qtype, page, slot) => NewOpKeepsShape(s, t, cpu, qtype, t.ops[|s.ops|]);
    case FaultIssue(f, page, slot) => NewOpKeepsShape(s, t, s.faults[f].cpu, ReadSync, t.ops[|s.ops|]);
    case FaultPrefetch(f, cpu, page, slot) => NewOpKeepsShape(s, t, cpu, ReadAsync, t.ops[|s.ops|]);
    case Advance(i, step) => AdvanceKeepsShape(s, i, step);
    case _ =>
  }

  /** The state reached by a list of actions, if each is enabled where it is taken. */
  ghost function Exec(s0: State, acts: seq<Action>): Option<State>
    ensures Exec(s0, acts).Some? && Shape(s0) ==> Shape(Exec(s0, acts).value)
  {
    if acts == [] then Some(s0)
    else
      var before := Exec(s0, acts[..|acts| - 1]);
      var a := acts[|acts| - 1];
      if before.Some? && Shape(before.value) && Enabled(before.value, a) then
        ApplyKeepsShape(before.value, a);
        Some(Apply(before.value, a))
      else None
  }

  ghost predicate IsRun(s0: State, acts: seq<Action>) {
    Init(s0) && Exec(s0, acts).Some?
  }

  lemma ExecExtend(s0: State, acts: seq<Action>, a: Action)
    requires Exec(s0, acts).Some? && Shape(Exec(s0, acts).value) && Enabled(Exec(s0, acts).value, a)
    ensures Exec(s0, acts + [a]) == Some(Apply(Exec(s0, acts).value, a))
    ensures Shape(Exec(s0, acts + [a]).value)
  {
    assert (acts + [a])[..|acts|] == acts;
    ApplyKeepsShape(Exec(s0, acts).value, a);
  }

  lemma ExecAppend(s0: State, acts: seq<Action>, a: Action)
    requires Exec(s0, acts + [a]).Some?
    ensures Exec(s0, acts).Some? && Shape(Exec(s0, acts).value)
    ensures Enabled(Exec(s0, acts).value, a)
    ensures Exec(s0, acts + [a]) == Some(Apply(Exec(s0, acts).value, a))
  {
    assert (acts + [a])[..|acts|] == acts;
  }
}
