/** Reclaim of one memory cgroup: try_charge, the over-high reclaim that a charging thread does
    on its way back to user mode, memory_high_write and the self-rescheduling high_work_func,
    each cut at its shared reads and writes (code/kernel/kernel.patch). */
module Reclaim {

  const MAX_RECLAIM_OFFLOAD: nat := 2048

  /** What a thread is doing. In try_charge: pages charged, then memcg->high read, then the
      counter read and acted on. In mem_cgroup_handle_over_high: the counter read for the test
      of reclaim_high, then reclaiming, with so many pages freed so far. */
  datatype Call = Out | Charged(pages: nat) | LimitRead(pages: nat, limit: nat) | Tested(usage: nat) | Freeing(freed: nat)

  /** over is current->memcg_nr_pages_over_high. */
  datatype Thread = Thread(call: Call, over: nat)

  /** high_work_func: not running; asked reclaim_high for so many pages; has read the counter
      for its last test. */
  datatype Worker = Idle | Reclaiming(ask: nat) | UsageRead(usage: nat)

  /** setters counts memory_high_write calls that have set high but not yet scheduled the work;
      short sums up what over-high reclaims fell short of with usage still above the limit. */
  datatype State = State(usage: nat, high: nat, queued: bool, worker: Worker,
                         threads: seq<Thread>, setters: nat, short: nat)

  datatype Action =
    // try_charge, in a thread or in an interrupt that counts as a thread of its own
    | Charge(t: nat, pages: nat)
    | ReadLimit(t: nat)
    | Check(t: nat, inInterrupt: bool)
    // mem_cgroup_handle_over_high
    | TestUsage(t: nat)
    | TestLimit(t: nat)
    | ThreadReclaims(t: nat, pages: nat)
    | ThreadDone(t: nat)
    // the rest of the kernel, and memory_high_write
    | Uncharge(pages: nat)
    | SetHigh(high: nat)
    | SetterSchedules
    // high_work_func
    | WorkerStart
    | WorkerReclaims(pages: nat)
    | WorkerReadsUsage
    | WorkerDecides

  function Min(a: nat, b: nat): nat { if a < b then a else b }

  function Above(a: nat, b: nat): nat { if a > b then a - b else 0 }

  predicate Enabled(s: State, a: Action) {
    match a
    case Charge(t, _) => t < |s.threads| && s.threads[t].call.Out?
    case ReadLimit(t) => t < |s.threads| && s.threads[t].call.Charged?
    case Check(t, _) => t < |s.threads| && s.threads[t].call.LimitRead?
    case TestUsage(t) => t < |s.threads| && s.threads[t].call.Out? && s.threads[t].over > 0
    case TestLimit(t) => t < |s.threads| && s.threads[t].call.Tested?
    case ThreadReclaims(t, pages) => t < |s.threads| && s.threads[t].call.Freeing? && pages <= s.usage
    case ThreadDone(t) => t < |s.threads| && s.threads[t].call.Freeing?
    case Uncharge(pages) => pages <= s.usage
    case SetHigh(_) => true
    case SetterSchedules => s.setters > 0
    case WorkerStart => s.queued && s.worker.Idle?
    case WorkerReclaims(pages) => s.worker.Reclaiming? && pages <= s.usage
    case WorkerReadsUsage => s.worker.Reclaiming?
    case WorkerDecides => s.worker.UsageRead?
  }

  /** try_charge leaves the excess to the charging thread: it is large and no interrupt. */
  predicate Defers(limit: nat, usage: nat, inInterrupt: bool) {
    Above(usage, limit) > MAX_RECLAIM_OFFLOAD && !inInterrupt
  }

  /** Otherwise it hands any excess to the worker. */
  predicate Schedules(limit: nat, usage: nat, inInterrupt: bool) {
    usage > limit && !Defers(limit, usage, inInterrupt)
  }

  function Put(s: State, t: nat, thread: Thread): State
    requires t < |s.threads|
  {
    s.(threads := s.threads[t := thread])
  }

  function CheckedThread(s: State, t: nat, inInterrupt: bool): Thread
    requires Enabled(s, Check(t, inInterrupt))
  {
    var thread := s.threads[t];
    Thread(Out, thread.over + if Defers(thread.call.limit, s.usage, inInterrupt) then MAX_RECLAIM_OFFLOAD else 0)
  }

  /** What the thread leaves of its ask with usage still above the limit. */
  function Shortfall(s: State, t: nat): nat
    requires Enabled(s, ThreadDone(t))
  {
    Min(Above(s.threads[t].over, s.threads[t].call.freed), Above(s.usage, s.high))
  }

  function Apply(s: State, a: Action): State
    requires Enabled(s, a)
  {
    match a
    case Charge(t, pages) => Put(s, t, s.threads[t].(call := Charged(pages))).(usage := s.usage + pages)
    case ReadLimit(t) => Put(s, t, s.threads[t].(call := LimitRead(s.threads[t].call.pages, s.high)))
    case Check(t, inInterrupt) =>
      Put(s, t, CheckedThread(s, t, inInterrupt))
        .(queued := s.queued || Schedules(s.threads[t].call.limit, s.usage, inInterrupt))
    case TestUsage(t) => Put(s, t, s.threads[t].(call := Tested(s.usage)))
    case TestLimit(t) =>
      Put(s, t, if s.threads[t].call.usage > s.high then s.threads[t].(call := Freeing(0)) else Thread(Out, 0))
    case ThreadReclaims(t, pages) =>
      Put(s, t, s.threads[t].(call := Freeing(s.threads[t].call.freed + pages))).(usage := s.usage - pages)
    case ThreadDone(t) => Put(s, t, Thread(Out, 0)).(short := s.short + Shortfall(s, t))
    case Uncharge(pages) => s.(usage := s.usage - pages)
    case SetHigh(high) => s.(high := high, setters := s.setters + 1)
    case SetterSchedules => s.(queued := true, setters := s.setters - 1)
    case WorkerStart =>
      s.(queued := false, worker := Reclaiming(Min(Above(s.usage, s.high), MAX_RECLAIM_OFFLOAD)))
    case WorkerReclaims(pages) => s.(usage := s.usage - pages)
    case WorkerReadsUsage => s.(worker := UsageRead(s.usage))
    case WorkerDecides => s.(worker := Idle, queued := s.queued || s.worker.usage > s.high)
  }

  /** The worker will run again: it is queued or running before its last test, that test is
      bound to requeue it, or a memory_high_write is about to schedule it. */
  predicate Covered(s: State) {
    || s.queued
    || s.worker.Reclaiming?
    || (s.worker.UsageRead? && s.worker.usage > s.high)
    || s.setters > 0
  }

  // ----- sums over the threads

  ghost function Sum(threads: seq<Thread>, f: Thread -> nat): nat {
    if threads == [] then 0 else Sum(threads[..|threads| - 1], f) + f(threads[|threads| - 1])
  }

  lemma {:induction false} SumUpdate(threads: seq<Thread>, t: nat, thread: Thread, f: Thread -> nat)
    requires t < |threads|
    ensures Sum(threads[t := thread], f) == Sum(threads, f) - f(threads[t]) + f(thread)
  {
    var n := |threads| - 1;
    if t < n {
      SumUpdate(threads[..n], t, thread, f);
      assert threads[t := thread][..n] == threads[..n][t := thread];
    } else {
      assert threads[t := thread][..n] == threads[..n];
    }
  }

  lemma {:induction false} SumMonotone(threads: seq<Thread>, f: Thread -> nat, g: Thread -> nat)
    requires forall t | 0 <= t < |threads| :: f(threads[t]) <= g(threads[t])
    ensures Sum(threads, f) <= Sum(threads, g)
  {
    if threads != [] { SumMonotone(threads[..|threads| - 1], f, g); }
  }

  lemma {:induction false} SumBounded(threads: seq<Thread>, f: Thread -> nat, most: nat)
    requires most <= 1 && forall t | 0 <= t < |threads| :: f(threads[t]) <= most
    ensures Sum(threads, f) <= |threads| && (most == 0 ==> Sum(threads, f) == 0)
  {
    if threads != [] { SumBounded(threads[..|threads| - 1], f, most); }
  }

  /** Pages charged by a call that has not made its check. */
  function UncheckedPages(thread: Thread): nat {
    if thread.call.Charged? || thread.call.LimitRead? then thread.call.pages else 0
  }

  /** The same if the check will be made against the present limit. */
  function LivePages(thread: Thread, high: nat): nat {
    if thread.call.LimitRead? && thread.call.limit != high then 0 else UncheckedPages(thread)
  }

  /** Pages that the thread is still going to free on its way to user mode. */
  function OverPages(thread: Thread, high: nat): nat {
    match thread.call
    case Tested(usage) => if usage > high then thread.over else 0
    case Freeing(freed) => Above(thread.over, freed)
    case _ => thread.over
  }

  ghost function LiveAt(high: nat): Thread -> nat {
    thread => LivePages(thread, high)
  }

  /** What the thread will still answer for, by its check or by reclaim of its own. */
  ghost function AnswerAt(high: nat): Thread -> nat {
    thread => LivePages(thread, high) + OverPages(thread, high)
  }

  ghost function Unchecked(s: State): nat {
    Sum(s.threads, UncheckedPages)
  }

  // ----- what every step keeps

  /** An excess for which the worker will not run is owed to the threads: to checks still to
      come, to over-high reclaim still to come, or it is what such reclaim fell short of. */
  ghost predicate Answered(s: State) {
    s.usage > s.high && !Covered(s) ==> s.usage - s.high <= Sum(s.threads, AnswerAt(s.high)) + s.short
  }

  /** The same without the threads' own reclaim. */
  ghost predicate Watched(s: State) {
    s.usage > s.high && !Covered(s) ==> s.usage - s.high <= Sum(s.threads, LiveAt(s.high))
  }

  ghost predicate ChargesAtMost(s: State, cap: nat) {
    forall t | 0 <= t < |s.threads| :: UncheckedPages(s.threads[t]) <= cap
  }

  lemma StepKeepsCharges(s: State, a: Action, cap: nat)
    requires Enabled(s, a) && ChargesAtMost(s, cap) && (a.Charge? ==> a.pages <= cap)
    ensures ChargesAtMost(Apply(s, a), cap)
  {
  }

  /** A step of thread a.t. */
  predicate OfThread(a: Action) {
    a.Charge? || a.ReadLimit? || a.Check? || a.TestUsage? || a.TestLimit? || a.ThreadReclaims? || a.ThreadDone?
  }

  lemma StepKeepsAnswered(s: State, a: Action)
    requires Enabled(s, a) && Answered(s) && ChargesAtMost(s, MAX_RECLAIM_OFFLOAD)
    ensures Answered(Apply(s, a))
  {
    var t := Apply(s, a);
    if OfThread(a) {
      SumUpdate(s.threads, a.t, t.threads[a.t], AnswerAt(s.high));
      ThreadAnswers(s, a);
    }
  }

  /** A thread's step takes away no more of what it answers for than of the excess, unless the
      worker is scheduled or there is no excess. */
  lemma ThreadAnswers(s: State, a: Action)
    requires Enabled(s, a) && OfThread(a) && ChargesAtMost(s, MAX_RECLAIM_OFFLOAD)
    ensures var t, f := Apply(s, a), AnswerAt(s.high);
      && t.high == s.high && (Covered(s) ==> Covered(t))
      && (t.usage <= t.high || Covered(t)
          || t.usage + f(s.threads[a.t]) <= s.usage + f(t.threads[a.t]) + Above(t.short, s.short)
          || t.usage - t.high <= t.short)
      && t.short >= s.short
  {
  }

  lemma StepKeepsWatched(s: State, a: Action)
    requires Enabled(s, a) && Watched(s) && Unchecked(s) <= MAX_RECLAIM_OFFLOAD
    ensures Watched(Apply(s, a))
  {
    var t := Apply(s, a);
    if OfThread(a) {
      SumUpdate(s.threads, a.t, t.threads[a.t], LiveAt(s.high));
      SumMonotone(s.threads, LiveAt(s.high), UncheckedPages);
    }
  }

  // ----- runs

  function Step(s: State, a: Action): State {
    if Enabled(s, a) then Apply(s, a) else s
  }

  ghost function Exec(s0: State, acts: seq<Action>): (r: State) {
    if acts == [] then s0 else Step(Exec(s0, acts[..|acts| - 1]), acts[|acts| - 1])
  }

  lemma ExecLast(s0: State, acts: seq<Action>, a: Action)
    ensures Exec(s0, acts + [a]) == Step(Exec(s0, acts), a)
  {
    assert (acts + [a])[..|acts|] == acts;
  }

  ghost predicate Init(s: State) {
    && s.usage <= s.high && !s.queued && s.worker.Idle? && s.setters == 0 && s.short == 0
    && forall t | 0 <= t < |s.threads| :: s.threads[t] == Thread(Out, 0)
  }

  /** A run in which no charge exceeds cap pages and never more than racing charged pages await
      their check. */
  ghost predicate IsRun(s0: State, acts: seq<Action>, cap: nat, racing: nat) {
    && Init(s0)
    && SmallCharges(acts, cap)
    && forall k | 0 <= k <= |acts| :: Unchecked(Exec(s0, acts[..k])) <= racing
  }

  lemma PrefixIsRun(s0: State, acts: seq<Action>, cap: nat, racing: nat)
    requires IsRun(s0, acts, cap, racing) && acts != []
    ensures IsRun(s0, acts[..|acts| - 1], cap, racing)
    ensures Unchecked(Exec(s0, acts[..|acts| - 1])) <= racing
  {
    var before := acts[..|acts| - 1];
    assert forall k | 0 <= k <= |before| :: before[..k] == acts[..k];
    assert before[..|before|] == before;
  }

  lemma ExtendRun(s0: State, acts: seq<Action>, a: Action, cap: nat, racing: nat)
    requires IsRun(s0, acts, cap, racing) && (a.Charge? ==> a.pages <= cap)
    requires Unchecked(Step(Exec(s0, acts), a)) <= racing
    ensures IsRun(s0, acts + [a], cap, racing) && Exec(s0, acts + [a]) == Step(Exec(s0, acts), a)
  {
    var all := acts + [a];
    ExecLast(s0, acts, a);
    forall k | 0 <= k <= |all| ensures Unchecked(Exec(s0, all[..k])) <= racing {
      if k < |all| { assert all[..k] == acts[..k]; } else { assert all[..k] == all; }
    }
  }

  ghost predicate SmallCharges(acts: seq<Action>, cap: nat) {
    forall k | 0 <= k < |acts| && acts[k].Charge? :: acts[k].pages <= cap
  }

  lemma {:induction false} ExecKeepsCharges(s: State, acts: seq<Action>, cap: nat)
    requires ChargesAtMost(s, cap) && SmallCharges(acts, cap)
    ensures ChargesAtMost(Exec(s, acts), cap)
  {
    if acts != [] {
      var before, a := acts[..|acts| - 1], acts[|acts| - 1];
      ExecKeepsCharges(s, before, cap);
      if Enabled(Exec(s, before), a) { StepKeepsCharges(Exec(s, before), a, cap); }
    }
  }

  lemma {:induction false} ExecKeepsAnswered(s: State, acts: seq<Action>)
    requires Answered(s) && ChargesAtMost(s, MAX_RECLAIM_OFFLOAD) && SmallCharges(acts, MAX_RECLAIM_OFFLOAD)
    ensures Answered(Exec(s, acts)) && ChargesAtMost(Exec(s, acts), MAX_RECLAIM_OFFLOAD)
  {
    ExecKeepsCharges(s, acts, MAX_RECLAIM_OFFLOAD);
    if acts != [] {
      var before, a := acts[..|acts| - 1], acts[|acts| - 1];
      ExecKeepsAnswered(s, before);
      if Enabled(Exec(s, before), a) { StepKeepsAnswered(Exec(s, before), a); }
    }
  }

  /** In every run whose charges are at most MAX_RECLAIM_OFFLOAD pages each, however many race:
      an excess for which the worker will not run is answered for by the charging threads, but
      for what their reclaim fell short of. */
  lemma EveryRunAnswered(s0: State, acts: seq<Action>)
    requires Init(s0) && SmallCharges(acts, MAX_RECLAIM_OFFLOAD)
    ensures Answered(Exec(s0, acts))
  {
    ExecKeepsAnswered(s0, acts);
  }

  /** In every run with at most MAX_RECLAIM_OFFLOAD charged pages awaiting their check, an excess
      for which the worker will not run is covered by those checks. */
  lemma {:induction false} EveryRunWatched(s0: State, acts: seq<Action>, cap: nat)
    requires IsRun(s0, acts, cap, MAX_RECLAIM_OFFLOAD)
    ensures Watched(Exec(s0, acts))
  {
    if acts != [] {
      var before, a := acts[..|acts| - 1], acts[|acts| - 1];
      PrefixIsRun(s0, acts, cap, MAX_RECLAIM_OFFLOAD);
      EveryRunWatched(s0, before, cap);
      if Enabled(Exec(s0, before), a) { StepKeepsWatched(Exec(s0, before), a); }
    }
  }

  lemma InterruptKeepsWatched(s: State, a: Action)
    requires Enabled(s, a) && Watched(s) && (a.Check? ==> a.inInterrupt)
    ensures Watched(Apply(s, a))
  {
    var t := Apply(s, a);
    if OfThread(a) {
      SumUpdate(s.threads, a.t, t.threads[a.t], LiveAt(s.high));
    }
  }

  /** In every run whose checks are all made in interrupts, whatever is charged and however much
      races: an excess for which the worker will not run is covered by checks still to come. */
  lemma {:induction false} InterruptRunsWatched(s0: State, acts: seq<Action>)
    requires Init(s0) && forall k | 0 <= k < |acts| && acts[k].Check? :: acts[k].inInterrupt
    ensures Watched(Exec(s0, acts))
  {
    if acts != [] {
      var before, a := acts[..|acts| - 1], acts[|acts| - 1];
      InterruptRunsWatched(s0, before);
      if Enabled(Exec(s0, before), a) { InterruptKeepsWatched(Exec(s0, before), a); }
    }
  }

  /** Usage above the limit, every check made, and the worker is not going to run. */
  ghost predicate Unscheduled(s: State) {
    s.usage > s.high && Unchecked(s) == 0 && !Covered(s)
  }

  /** And no thread is going to reclaim either: nothing will lower usage any more. */
  ghost predicate Stranded(s: State) {
    && s.usage > s.high && !Covered(s)
    && forall t | 0 <= t < |s.threads| :: s.threads[t] == Thread(Out, 0)
  }

  /** A check made in an interrupt never leaves the excess to the interrupted thread: with all
      checks made so, usage above the limit always has the worker coming, and no thread is ever
      given over-high pages. */
  lemma InterruptsAlwaysSchedule(s0: State, acts: seq<Action>)
    requires Init(s0) && forall k | 0 <= k < |acts| && acts[k].Check? :: acts[k].inInterrupt
    ensures !Unscheduled(Exec(s0, acts))
    ensures forall t | 0 <= t < |Exec(s0, acts).threads| :: Exec(s0, acts).threads[t].over == 0
  {
    var s := Exec(s0, acts);
    InterruptRunsWatched(s0, acts);
    SumMonotone(s.threads, LiveAt(s.high), UncheckedPages);
    InterruptsOweNothing(s0, acts);
  }

  lemma {:induction false} InterruptsOweNothing(s0: State, acts: seq<Action>)
    requires Init(s0) && forall k | 0 <= k < |acts| && acts[k].Check? :: acts[k].inInterrupt
    ensures forall t | 0 <= t < |Exec(s0, acts).threads| :: Exec(s0, acts).threads[t].over == 0
  {
    if acts != [] { InterruptsOweNothing(s0, acts[..|acts| - 1]); }
  }

  lemma StrandedIsUnscheduled(s: State)
    requires Stranded(s)
    ensures Unscheduled(s) && Sum(s.threads, AnswerAt(s.high)) == 0
  {
    SumBounded(s.threads, UncheckedPages, 0);
    SumBounded(s.threads, AnswerAt(s.high), 0);
  }

  /** However it comes about, a stranded excess is at most what over-high reclaims fell short of. */
  lemma StrandedAtMostShort(s0: State, acts: seq<Action>)
    requires Init(s0) && SmallCharges(acts, MAX_RECLAIM_OFFLOAD) && Stranded(Exec(s0, acts))
    ensures Exec(s0, acts).usage - Exec(s0, acts).high <= Exec(s0, acts).short
  {
    EveryRunAnswered(s0, acts);
    StrandedIsUnscheduled(Exec(s0, acts));
  }

  lemma NeverUnscheduled(s0: State, acts: seq<Action>, cap: nat, racing: nat)
    requires IsRun(s0, acts, cap, racing) && (cap == 0 || racing <= MAX_RECLAIM_OFFLOAD)
    ensures !Unscheduled(Exec(s0, acts))
  {
    var s := Exec(s0, acts);
    if cap == 0 { NothingRaces(s0, acts, racing); }
    EveryRunWatched(s0, acts, cap);
    SumMonotone(s.threads, LiveAt(s.high), UncheckedPages);
  }

  /** Where charges are of no pages, none await their check. */
  lemma NothingRaces(s0: State, acts: seq<Action>, racing: nat)
    requires IsRun(s0, acts, 0, racing)
    ensures IsRun(s0, acts, 0, 0)
  {
    forall k | 0 <= k <= |acts| ensures Unchecked(Exec(s0, acts[..k])) <= 0 {
      var part := acts[..k];
      assert forall m | 0 <= m <= k :: part[..m] == acts[..m];
      ExecKeepsCharges(s0, part, 0);
      SumBounded(Exec(s0, part).threads, UncheckedPages, 0);
    }
  }

  // ----- the runs that show the conditions are needed

  const Crowd: nat := MAX_RECLAIM_OFFLOAD + 1

  /** A crowd of threads goes through these stages together: charge one page each, read the
      limit, check, test the counter, test the limit, give up without having freed a page. */
  function CrowdThread(stage: nat): Thread
    requires stage <= 6
  {
    match stage
    case 1 => Thread(Charged(1), 0)
    case 2 => Thread(LimitRead(1, 0), 0)
    case 3 => Thread(Out, MAX_RECLAIM_OFFLOAD)
    case 4 => Thread(Tested(Crowd), MAX_RECLAIM_OFFLOAD)
    case 5 => Thread(Freeing(0), MAX_RECLAIM_OFFLOAD)
    case _ => Thread(Out, 0)
  }

  function CrowdStep(stage: nat, t: nat): Action {
    match stage
    case 0 => Charge(t, 1)
    case 1 => ReadLimit(t)
    case 2 => Check(t, false)
    case 3 => TestUsage(t)
    case 4 => TestLimit(t)
    case _ => ThreadDone(t)
  }

  /** The first k threads are through the stage, the others about to take its step. */
  function CrowdThreads(stage: nat, k: nat): (threads: seq<Thread>)
    requires stage < 6 && k <= Crowd
    ensures |threads| == Crowd
    ensures forall t | 0 <= t < Crowd :: threads[t] == CrowdThread(if t < k then stage + 1 else stage)
  {
    seq(Crowd, t requires 0 <= t < Crowd => CrowdThread(if t < k then stage + 1 else stage))
  }

  function CrowdState(stage: nat, k: nat): State
    requires stage < 6 && k <= Crowd
  {
    State(if stage == 0 then k else Crowd, 0, false, Idle, CrowdThreads(stage, k), 0,
          if stage == 5 then k * MAX_RECLAIM_OFFLOAD else 0)
  }

  lemma CrowdMoves(stage: nat, k: nat)
    requires stage < 6 && k < Crowd
    ensures Step(CrowdState(stage, k), CrowdStep(stage, k)) == CrowdState(stage, k + 1)
  {
    var s := CrowdState(stage, k);
    assert s.threads[k] == CrowdThread(stage);
    assert CrowdState(stage, k + 1).threads == s.threads[k := CrowdThread(stage + 1)];
  }

  lemma {:induction false} CrowdRun(stage: nat, k: nat) returns (acts: seq<Action>)
    requires stage < 6 && k <= Crowd
    ensures IsRun(CrowdState(0, 0), acts, 1, Crowd) && Exec(CrowdState(0, 0), acts) == CrowdState(stage, k)
    decreases stage, k
  {
    var s0, s := CrowdState(0, 0), CrowdState(stage, k);
    SumBounded(s.threads, UncheckedPages, 1);
    if k > 0 {
      acts := CrowdRun(stage, k - 1);
      CrowdMoves(stage, k - 1);
      ExtendRun(s0, acts, CrowdStep(stage, k - 1), 1, Crowd);
      acts := acts + [CrowdStep(stage, k - 1)];
    } else if stage > 0 {
      acts := CrowdRun(stage - 1, Crowd);
      assert CrowdState(stage - 1, Crowd) == s;
    } else {
      acts := [];
    }
  }

  lemma CrowdEnds()
    ensures Unscheduled(CrowdState(2, Crowd)) && CrowdState(2, Crowd).short == 0
    ensures Stranded(CrowdState(5, Crowd))
  {
    SumBounded(CrowdState(2, Crowd).threads, UncheckedPages, 0);
  }

  /** One charge of 2049 pages: the thread takes on 2048, frees them, and the last page stays. */
  function LargeCharge(): seq<Action> {
    [Charge(0, 2049), ReadLimit(0), Check(0, false), TestUsage(0), TestLimit(0), ThreadReclaims(0, 2048), ThreadDone(0)]
  }

  /** Where it stands after k of these steps. */
  function LargeState(k: nat): State {
    var threads := [match k
      case 1 => Thread(Charged(2049), 0)
      case 2 => Thread(LimitRead(2049, 0), 0)
      case 3 => Thread(Out, 2048)
      case 4 => Thread(Tested(2049), 2048)
      case 5 => Thread(Freeing(0), 2048)
      case 6 => Thread(Freeing(2048), 2048)
      case _ => Thread(Out, 0)];
    State(if k == 0 then 0 else if k < 6 then 2049 else 1, 0, false, Idle, threads, 0, 0)
  }

  lemma LargeMoves(k: nat)
    requires k < 7
    ensures Step(LargeState(k), LargeCharge()[k]) == LargeState(k + 1)
  {
  }

  lemma {:induction false} LargeChargeRun(k: nat)
    requires k <= 7
    ensures IsRun(LargeState(0), LargeCharge()[..k], 2049, 2049)
    ensures Exec(LargeState(0), LargeCharge()[..k]) == LargeState(k)
  {
    var acts := LargeCharge();
    UncheckedOne(LargeState(k));
    if k > 0 {
      LargeChargeRun(k - 1);
      LargeMoves(k - 1);
      ExtendRun(LargeState(0), acts[..k - 1], acts[k - 1], 2049, 2049);
      assert acts[..k] == acts[..k - 1] + [acts[k - 1]];
    }
  }

  lemma UncheckedOne(s: State)
    requires |s.threads| == 1
    ensures Unchecked(s) == UncheckedPages(s.threads[0])
  {
    assert s.threads[..0] == [] && Sum(s.threads[..0], UncheckedPages) == 0;
  }

  lemma WiderRun(s0: State, acts: seq<Action>, cap: nat, racing: nat, cap': nat, racing': nat)
    requires IsRun(s0, acts, cap, racing) && cap <= cap' && racing <= racing'
    ensures IsRun(s0, acts, cap', racing')
  {
  }

  /** Usage above the limit with every check made means that the worker will run, in all runs of
      charges of at most cap pages with at most racing of them unchecked, if and only if the
      unchecked charges cannot exceed MAX_RECLAIM_OFFLOAD. Small charges are not enough: enough
      of them at once, and every check leaves the excess to its thread. */
  lemma WorkerScheduledIffFewUnchecked(cap: nat, racing: nat)
    ensures cap == 0 || racing <= MAX_RECLAIM_OFFLOAD <==>
      forall s0, acts :: IsRun(s0, acts, cap, racing) ==> !Unscheduled(Exec(s0, acts))
  {
    if cap == 0 || racing <= MAX_RECLAIM_OFFLOAD {
      forall s0, acts | IsRun(s0, acts, cap, racing) ensures !Unscheduled(Exec(s0, acts)) {
        NeverUnscheduled(s0, acts, cap, racing);
      }
    } else {
      var acts := CrowdRun(2, Crowd);
      WiderRun(CrowdState(0, 0), acts, 1, Crowd, cap, racing);
      CrowdEnds();
      assert Unscheduled(Exec(CrowdState(0, 0), acts));
    }
  }

  /** Some run with these bounds leaves usage above the limit for good; if thorough, without an
      over-high reclaim that fell short. */
  ghost predicate CanStrand(cap: nat, racing: nat, thorough: bool) {
    exists s0, acts :: Strands(s0, acts, cap, racing, thorough)
  }

  ghost predicate Strands(s0: State, acts: seq<Action>, cap: nat, racing: nat, thorough: bool) {
    IsRun(s0, acts, cap, racing) && Stranded(Exec(s0, acts)) && (thorough ==> Exec(s0, acts).short == 0)
  }

  /** Usage above the limit always has reclaim coming, from the worker or from a thread, if and
      only if the charges awaiting their check cannot exceed MAX_RECLAIM_OFFLOAD pages, or no
      single charge does and over-high reclaim never falls short. */
  lemma NeverStrandedIff(cap: nat, racing: nat, thorough: bool)
    ensures !CanStrand(cap, racing, thorough) <==>
      cap == 0 || racing <= MAX_RECLAIM_OFFLOAD || (cap <= MAX_RECLAIM_OFFLOAD && thorough)
  {
    if cap == 0 || racing <= MAX_RECLAIM_OFFLOAD || (cap <= MAX_RECLAIM_OFFLOAD && thorough) {
      forall s0, acts | Strands(s0, acts, cap, racing, thorough) ensures false {
        StrandedIsUnscheduled(Exec(s0, acts));
        if cap == 0 || racing <= MAX_RECLAIM_OFFLOAD {
          NeverUnscheduled(s0, acts, cap, racing);
        } else {
          StrandedAtMostShort(s0, acts);
        }
      }
    } else if !thorough {
      var acts := CrowdRun(5, Crowd);
      WiderRun(CrowdState(0, 0), acts, 1, Crowd, cap, racing);
      CrowdEnds();
      assert Strands(CrowdState(0, 0), acts, cap, racing, thorough);
    } else {
      LargeChargeRun(7);
      assert LargeCharge()[..7] == LargeCharge();
      WiderRun(LargeState(0), LargeCharge(), 2049, 2049, cap, racing);
      assert Strands(LargeState(0), LargeCharge(), cap, racing, thorough);
    }
  }

  // ----- the functions themselves, with nobody else about

  function CeilDiv(n: nat): nat {
    (n + MAX_RECLAIM_OFFLOAD - 1) / MAX_RECLAIM_OFFLOAD
  }

  lemma CeilStep(before: nat, after: nat)
    ensures before > 0 && after + Min(before, MAX_RECLAIM_OFFLOAD) <= before ==>
      CeilDiv(after) + 1 <= CeilDiv(before)
  {
  }

  lemma ExecTwo(s: State, a: Action, b: Action)
    ensures Exec(s, [a, b]) == Step(Step(s, a), b)
  {
    assert [] + [a] == [a] && [a] + [b] == [a, b];
    ExecLast(s, [], a);
    ExecLast(s, [a], b);
  }

  lemma ExecThree(s: State, a: Action, b: Action, c: Action)
    ensures Exec(s, [a, b, c]) == Step(Step(Step(s, a), b), c)
  {
    ExecTwo(s, a, b);
    assert [a, b] + [c] == [a, b, c];
    ExecLast(s, [a, b], c);
  }

  lemma ExecFour(s: State, a: Action, b: Action, c: Action, d: Action)
    ensures Exec(s, [a, b, c, d]) == Step(Step(Step(Step(s, a), b), c), d)
  {
    ExecThree(s, a, b, c);
    assert [a, b, c] + [d] == [a, b, c, d];
    ExecLast(s, [a, b, c], d);
  }

  /** The worker asks for all of the excess or, if that is more, for 2048 pages. */
  lemma WorkerAsks(s: State)
    requires Enabled(s, WorkerStart)
    ensures var t := Step(s, WorkerStart);
      && t.worker.Reclaiming? && t.worker.ask <= 2048 && (t.worker.ask > 0 <==> s.usage > s.high)
      && (s.usage > s.high ==> t.worker.ask <= s.usage - s.high && (t.worker.ask == 2048 || t.worker.ask == s.usage - s.high))
  {
  }

  /** One run of the worker with nobody else about. */
  lemma WorkerRound(s: State, freed: nat)
    requires s.queued && s.worker.Idle? && freed <= s.usage
    ensures Exec(s, [WorkerStart, WorkerReclaims(freed), WorkerReadsUsage, WorkerDecides]) ==
      s.(usage := s.usage - freed, queued := s.usage - freed > s.high)
  {
    ExecFour(s, WorkerStart, WorkerReclaims(freed), WorkerReadsUsage, WorkerDecides);
  }

  /** One over-high reclaim with nobody else about. */
  lemma OverHighRound(s: State, t: nat, freed: nat)
    requires t < |s.threads| && s.threads[t].call.Out? && freed <= s.usage
    ensures Exec(s, [TestUsage(t), TestLimit(t), ThreadReclaims(t, freed), ThreadDone(t)]) ==
      if s.threads[t].over == 0 then s
      else if s.usage <= s.high then Put(s, t, Thread(Out, 0))
      else Reclaimed(s, t, freed)
  {
    ExecFour(s, TestUsage(t), TestLimit(t), ThreadReclaims(t, freed), ThreadDone(t));
    var begun := Step(Step(s, TestUsage(t)), TestLimit(t));
    TestRound(s, t);
    if begun.threads[t].call.Out? {
      NoReclaim(begun, t, freed);
    } else {
      ReclaimRound(s, begun, t, freed);
    }
  }

  function Reclaimed(s: State, t: nat, freed: nat): State
    requires t < |s.threads| && freed <= s.usage
  {
    var left := s.usage - freed;
    Put(s, t, Thread(Out, 0)).(usage := left, short := s.short + Min(Above(s.threads[t].over, freed), Above(left, s.high)))
  }

  lemma TestRound(s: State, t: nat)
    requires t < |s.threads| && s.threads[t].call.Out?
    ensures Step(Step(s, TestUsage(t)), TestLimit(t)) ==
      if s.threads[t].over == 0 then s
      else if s.usage <= s.high then Put(s, t, Thread(Out, 0))
      else Put(s, t, s.threads[t].(call := Freeing(0)))
  {
  }

  lemma NoReclaim(s: State, t: nat, freed: nat)
    requires t < |s.threads| && s.threads[t].call.Out?
    ensures Step(Step(s, ThreadReclaims(t, freed)), ThreadDone(t)) == s
  {
  }

  lemma ReclaimRound(s: State, begun: State, t: nat, freed: nat)
    requires t < |s.threads| && freed <= s.usage
    requires begun == Put(s, t, s.threads[t].(call := Freeing(0)))
    ensures Step(Step(begun, ThreadReclaims(t, freed)), ThreadDone(t)) == Reclaimed(s, t, freed)
  {
    var freeing := Step(begun, ThreadReclaims(t, freed));
    assert freeing == Put(s, t, s.threads[t].(call := Freeing(freed))).(usage := s.usage - freed);
    assert Put(freeing, t, Thread(Out, 0)) == Put(s, t, Thread(Out, 0)).(usage := s.usage - freed);
  }

  /** One try_charge with nobody else about. */
  lemma ChargeRound(s: State, t: nat, pages: nat, inInterrupt: bool)
    requires t < |s.threads| && s.threads[t].call.Out?
    ensures var thread, curr := s.threads[t], s.usage + pages;
      Exec(s, [Charge(t, pages), ReadLimit(t), Check(t, inInterrupt)]) ==
      if Defers(s.high, curr, inInterrupt) then
        Put(s, t, thread.(over := thread.over + MAX_RECLAIM_OFFLOAD)).(usage := curr)
      else s.(usage := curr, queued := s.queued || curr > s.high)
  {
    ExecThree(s, Charge(t, pages), ReadLimit(t), Check(t, inInterrupt));
    var curr := s.usage + pages;
    var read := Step(Step(s, Charge(t, pages)), ReadLimit(t));
    assert read == Put(s, t, s.threads[t].(call := LimitRead(pages, s.high))).(usage := curr);
    CheckRound(s, read, t, pages, inInterrupt);
  }

  lemma CheckRound(s: State, read: State, t: nat, pages: nat, inInterrupt: bool)
    requires t < |s.threads| && s.threads[t].call.Out?
    requires read == Put(s, t, s.threads[t].(call := LimitRead(pages, s.high))).(usage := s.usage + pages)
    ensures var thread, curr := s.threads[t], s.usage + pages;
      Step(read, Check(t, inInterrupt)) ==
      if Defers(s.high, curr, inInterrupt) then
        Put(s, t, thread.(over := thread.over + MAX_RECLAIM_OFFLOAD)).(usage := curr)
      else s.(usage := curr, queued := s.queued || curr > s.high)
  {
    assert s.threads[t := s.threads[t]] == s.threads;
  }

  class MemCgroup {
    var usage: nat
    var high: nat
    var queued: bool
    var threads: seq<Thread>
    ghost var short: nat

    constructor (usage: nat, high: nat, n: nat)
      ensures View() == State(usage, high, false, Idle, seq(n, _ => Thread(Out, 0)), 0, 0)
    {
      this.usage, this.high, queued := usage, high, false;
      threads, short := seq(n, _ => Thread(Out, 0)), 0;
    }

    ghost function View(): State
      reads this
    {
      State(usage, high, queued, Idle, threads, 0, short)
    }

    /** What every run of small charges keeps. */
    ghost predicate Valid()
      reads this
    {
      Answered(View()) && ChargesAtMost(View(), MAX_RECLAIM_OFFLOAD)
    }

    ghost function Excess(): nat
      reads this
    {
      Above(usage, high)
    }

    /** try_charge. */
    method TryCharge(t: nat, pages: nat, inInterrupt: bool)
      requires t < |threads| && threads[t].call.Out?
      modifies this`usage, this`queued, this`threads
      ensures View() == Exec(old(View()), [Charge(t, pages), ReadLimit(t), Check(t, inInterrupt)])
      ensures pages <= MAX_RECLAIM_OFFLOAD && old(Valid()) ==> Valid()
      ensures usage == old(usage) + pages
      ensures queued <==> old(queued) || (usage > high && (inInterrupt || usage - high <= 2048))
      ensures |threads| == old(|threads|) && threads[t].call.Out?
      ensures threads[t].over == old(threads[t].over) + if usage > high + 2048 && !inInterrupt then 2048 else 0
      ensures forall u | 0 <= u < |threads| && u != t :: threads[u] == old(threads[u])
    {
      ChargeRound(View(), t, pages, inInterrupt);
      if pages <= MAX_RECLAIM_OFFLOAD && Valid() {
        ExecKeepsAnswered(View(), [Charge(t, pages), ReadLimit(t), Check(t, inInterrupt)]);
      }
      usage := usage + pages;
      var limit, curr := high, usage;
      if curr > limit {
        var excess := curr - limit;
        if excess > MAX_RECLAIM_OFFLOAD && !inInterrupt {
          threads := threads[t := threads[t].(over := threads[t].over + MAX_RECLAIM_OFFLOAD)];
        } else {
          queued := true;
        }
      }
    }

    /** mem_cgroup_handle_over_high; reclaim_high frees some number of pages if usage is above
        the limit, at least what it is asked for or the excess if thorough. */
    method HandleOverHigh(t: nat, thorough: bool) returns (freed: nat)
      requires t < |threads| && threads[t].call.Out?
      modifies this`usage, this`threads, this`short
      ensures View() == Exec(old(View()), [TestUsage(t), TestLimit(t), ThreadReclaims(t, freed), ThreadDone(t)])
      ensures old(Valid()) ==> Valid()
      ensures usage == old(usage) - freed && (freed > 0 ==> old(threads[t].over) > 0 && old(usage) > high)
      ensures |threads| == old(|threads|) && threads[t] == Thread(Out, 0) && (thorough ==> short == old(short))
      ensures forall u | 0 <= u < |threads| && u != t :: threads[u] == old(threads[u])
      ensures thorough ==> Excess() == 0 || freed >= old(threads[t].over)
    {
      freed := 0;
      var asked := threads[t].over;
      if asked > 0 {
        if usage > high {
          var floor := if thorough then Min(asked, usage - high) else 0;
          freed :| floor <= freed <= usage;
          usage := usage - freed;
          short := short + Min(Above(asked, freed), Above(usage, high));
        }
        threads := threads[t := threads[t].(over := 0)];
      }
      OverHighRound(old(View()), t, freed);
      if old(Valid()) {
        ExecKeepsAnswered(old(View()), [TestUsage(t), TestLimit(t), ThreadReclaims(t, freed), ThreadDone(t)]);
      }
    }

    /** memory_high_write: set the limit, leave eviction to the worker. */
    method MemoryHighWrite(limit: nat)
      modifies this`high, this`queued
      ensures View() == Exec(old(View()), [SetHigh(limit), SetterSchedules])
      ensures old(Valid()) ==> Valid()
      ensures high == limit && Covered(View())
    {
      ExecTwo(View(), SetHigh(limit), SetterSchedules);
      high := limit;
      queued := true;
    }

    /** high_work_func; reclaim_high gives back some number of pages between floor and all of
        them, but only if there is an excess. It requeues itself exactly while one remains. */
    method HighWorkFunc(thorough: bool) returns (freed: nat)
      requires queued
      modifies this`usage, this`queued
      ensures View() == Exec(old(View()), [WorkerStart, WorkerReclaims(freed), WorkerReadsUsage, WorkerDecides])
      ensures old(Valid()) ==> Valid()
      ensures usage == old(usage) - freed && (queued <==> usage > high)
      ensures freed > 0 <==> old(Excess()) > 0
      ensures thorough ==> freed >= Step(old(View()), WorkerStart).worker.ask
      ensures thorough ==> Excess() == 0 || freed >= 2048
    {
      freed := 0;
      queued := false;
      WorkerAsks(old(View()));
      if usage > high {
        var ask := Min(usage - high, MAX_RECLAIM_OFFLOAD);
        var floor := if thorough then ask else 1;
        freed :| floor <= freed <= usage;
        usage := usage - freed;
      }
      if usage > high {
        queued := true;
      }
      WorkerRound(old(View()), freed);
      if old(Valid()) {
        ExecKeepsAnswered(old(View()), [WorkerStart, WorkerReclaims(freed), WorkerReadsUsage, WorkerDecides]);
      }
    }

    /** Run the worker until it no longer requeues itself. It always stops, with usage at or
        below the limit; if each run frees what it asked for, after at most excess / 2048 runs,
        rounded up (one run if there was no excess). */
    method ReclaimChain(thorough: bool) returns (runs: nat)
      requires queued
      modifies this`usage, this`queued
      ensures !queued && usage <= high && usage <= old(usage) && runs >= 1
      ensures old(Excess()) == 0 ==> runs == 1 && usage == old(usage)
      ensures thorough ==> runs <= 1 || runs <= CeilDiv(old(Excess()))
    {
      var _ := HighWorkFunc(thorough);
      runs := 1;
      CeilStep(old(Excess()), Excess());
      while queued
        invariant old(Excess()) == 0 ==> runs == 1 && usage == old(usage)
        invariant usage <= old(usage) && (queued <==> usage > high) && runs >= 1
        invariant thorough && Excess() > 0 ==> runs + CeilDiv(Excess()) <= CeilDiv(old(Excess()))
        invariant thorough && Excess() == 0 ==> runs <= 1 || runs <= CeilDiv(old(Excess()))
        decreases usage
      {
        ghost var before := Excess();
        var _ := HighWorkFunc(thorough);
        CeilStep(before, Excess());
        runs := runs + 1;
      }
    }

    /** Setting a limit takes effect, whatever state the cgroup was left in: the chain of worker
        runs that memory_high_write starts ends at or below it. */
    method ApplyLimit(limit: nat, thorough: bool) returns (runs: nat)
      modifies this`high, this`usage, this`queued
      ensures high == limit && usage <= limit && usage <= old(usage) && !Covered(View())
      ensures old(usage) <= limit ==> runs == 1 && usage == old(usage)
      ensures thorough ==> runs <= 1 || runs <= CeilDiv(Above(old(usage), limit))
    {
      MemoryHighWrite(limit);
      runs := ReclaimChain(thorough);
    }
  }
}
