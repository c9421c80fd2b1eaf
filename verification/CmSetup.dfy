/** Client side of connection setup: the connection-manager callback, one queue's
    initialisation, and the opening of all queues with its rollback
    (code/drivers/fastswap_rdma.c). */
module CmSetup {

  const ENODEV: int := 19
  const ECONNRESET: int := 104
  const ETIMEDOUT: int := 110

  /** A CM event together with what the verbs calls made by its handler return. */
  datatype CmEvent =
    | AddrResolved(device: bool, cq: int, qp: int, route: int)
    | RouteResolved(connect: int)
    | Established
    | Rejected
    | Failure    // ADDR_ERROR, ROUTE_ERROR, CONNECT_ERROR, UNREACHABLE
    | Closed     // DISCONNECTED, ADDR_CHANGE, TIMEWAIT_EXIT, DEVICE_REMOVAL, anything else

  /** The calls that create and release what a queue owns, in the order they are made. */
  datatype Call =
    | CreateId(q: nat) | DestroyId(q: nat)
    | AllocCq(q: nat) | FreeCq(q: nat)
    | CreateQp(q: nat) | DestroyQp(q: nat)
    | Disconnect(q: nat)

  // ----- the callback

  /** sswap_rdma_addr_resolved: the calls it makes for the queue, and its return code. */
  function AddrResolvedCalls(q: nat, e: CmEvent): seq<Call>
    requires e.AddrResolved?
  {
    if !e.device || e.cq != 0 then []
    else if e.qp != 0 then [AllocCq(q), FreeCq(q)]
    else if e.route != 0 then [AllocCq(q), CreateQp(q), FreeCq(q)]
    else [AllocCq(q), CreateQp(q)]
  }

  function HandlerCalls(q: nat, e: CmEvent): seq<Call> {
    match e
    case AddrResolved(_, _, _, _) => AddrResolvedCalls(q, e)
    case RouteResolved(connect) => if connect != 0 then [FreeCq(q)] else []
    case _ => []
  }

  /** The error code that the handler reports, 0 for none; a failed rdma_resolve_route or
      rdma_connect is not among them. */
  function HandlerError(e: CmEvent): int {
    match e
    case AddrResolved(device, cq, qp, _) => if !device then -ENODEV else if cq != 0 then cq else qp
    case Failure => -ECONNRESET
    case _ => 0
  }

  /** queue->cm_error after the event. */
  function CmErrorAfter(cmError: int, e: CmEvent): int {
    if e == Established then 0
    else if HandlerError(e) != 0 then HandlerError(e)
    else cmError
  }

  function CmErrorRun(events: seq<CmEvent>): int {
    if events == [] then -ETIMEDOUT
    else CmErrorAfter(CmErrorRun(events[..|events| - 1]), events[|events| - 1])
  }

  function CallsRun(q: nat, events: seq<CmEvent>): seq<Call> {
    if events == [] then []
    else CallsRun(q, events[..|events| - 1]) + HandlerCalls(q, events[|events| - 1])
  }

  // ----- one queue

  /** One attempt to open a queue: whether the id could be created, what rdma_resolve_addr
      returned, and the events the handler saw, the first seen of which came before the wait
      ended by completion, timeout or signal. */
  datatype Attempt = Attempt(created: bool, resolve: int, events: seq<CmEvent>, seen: nat)

  /** The attempt's events make sense. */
  predicate WellFormed(a: Attempt) {
    a.seen <= |a.events|
  }

  /** What sswap_rdma_init_queue returns. */
  function Outcome(a: Attempt): int
    requires WellFormed(a)
  {
    if !a.created then -ENODEV
    else if a.resolve != 0 then a.resolve
    else CmErrorRun(a.events[..a.seen])
  }

  function AttemptCalls(q: nat, a: Attempt): seq<Call>
    requires WellFormed(a)
  {
    if !a.created then []
    else if a.resolve != 0 then [CreateId(q), DestroyId(q)]
    else [CreateId(q)] + CallsRun(q, a.events) + (if Outcome(a) != 0 then [DestroyId(q)] else [])
  }

  /** The events that complete the wait, by what happened: an establishment, an error event, or
      an address resolved without a device, a CQ or a QP. */
  predicate Decides(e: CmEvent) {
    match e
    case Established => true
    case Failure => true
    case AddrResolved(device, cq, qp, _) => !device || cq != 0 || qp != 0
    case _ => false
  }

  /** The last of the first n events that decides. */
  ghost predicate LastDeciding(events: seq<CmEvent>, n: nat, k: nat)
    requires n <= |events|
  {
    k < n && Decides(events[k]) && forall m | k < m < n :: !Decides(events[m])
  }

  /** The code such an event leaves: 0, -ECONNRESET, -ENODEV, or what the failed call returned. */
  predicate Leaves(e: CmEvent, code: int) {
    match e
    case Established => code == 0
    case Failure => code == -104
    case AddrResolved(device, cq, qp, _) =>
      if !device then code == -19 else if cq != 0 then code == cq else code == qp
    case _ => false
  }

  lemma {:induction false} CodeOfLast(events: seq<CmEvent>)
    ensures (forall k | 0 <= k < |events| :: !Decides(events[k])) ==> CmErrorRun(events) == -110
    ensures forall k: nat | LastDeciding(events, |events|, k) :: Leaves(events[k], CmErrorRun(events))
  {
    if events != [] {
      var n := |events| - 1;
      CodeOfLast(events[..n]);
      forall k: nat | LastDeciding(events, |events|, k) ensures Leaves(events[k], CmErrorRun(events)) {
        if k < n {
          assert events[..n][k] == events[k] && !Decides(events[n]);
          assert LastDeciding(events[..n], n, k);
        }
      }
    }
  }

  /** What sswap_rdma_init_queue returns, for every attempt: -ENODEV without an id, the code of a
      failed rdma_resolve_addr, else the code left by the last event that decided before the wait
      ended, and -ETIMEDOUT if there was none. */
  lemma OutcomeExact(a: Attempt)
    requires WellFormed(a)
    ensures !a.created ==> Outcome(a) == -19
    ensures a.created && a.resolve != 0 ==> Outcome(a) == a.resolve
    ensures a.created && a.resolve == 0 && (forall k | 0 <= k < a.seen :: !Decides(a.events[k])) ==> Outcome(a) == -110
    ensures a.created && a.resolve == 0 ==>
      forall k: nat | LastDeciding(a.events, a.seen, k) :: Leaves(a.events[k], Outcome(a))
  {
    var seen := a.events[..a.seen];
    CodeOfLast(seen);
    forall k: nat | a.created && a.resolve == 0 && LastDeciding(a.events, a.seen, k)
      ensures Leaves(a.events[k], Outcome(a))
    {
      assert LastDeciding(seen, |seen|, k) by {
        forall m | k < m < |seen| ensures !Decides(seen[m]) { assert seen[m] == a.events[m]; }
      }
    }
  }

  lemma {:induction false} SomeLast(events: seq<CmEvent>, n: nat) returns (k: nat)
    requires n <= |events| && exists m :: 0 <= m < n && Decides(events[m])
    ensures LastDeciding(events, n, k)
  {
    if Decides(events[n - 1]) {
      k := n - 1;
    } else {
      k := SomeLast(events, n - 1);
    }
  }

  /** After event k, none of the first end events is an error event or an address resolved without
      device, CQ or QP. */
  predicate QuietAfter(events: seq<CmEvent>, k: nat, end: nat)
    requires end <= |events|
  {
    forall m | k < m < end ::
      && events[m] != Failure
      && (events[m].AddrResolved? ==> events[m].device && events[m].cq == 0 && events[m].qp == 0)
  }

  /** It returns 0 exactly if an ESTABLISHED event was handled before the wait ended and no error
      was reported after it: not on a timeout, a signal, a rejection or a connect call that failed. */
  lemma OpensIffEstablished(a: Attempt)
    requires WellFormed(a)
    ensures Outcome(a) == 0 <==>
      && a.created && a.resolve == 0
      && exists k :: 0 <= k < a.seen && a.events[k] == Established && QuietAfter(a.events, k, a.seen)
  {
    OutcomeExact(a);
    if a.created && a.resolve == 0 && exists m :: 0 <= m < a.seen && Decides(a.events[m]) {
      var k := SomeLast(a.events, a.seen);
      assert Leaves(a.events[k], Outcome(a));
      if Outcome(a) == 0 {
        assert a.events[k] == Established && QuietAfter(a.events, k, a.seen);
      }
      if exists j :: 0 <= j < a.seen && a.events[j] == Established && QuietAfter(a.events, j, a.seen) {
        var j :| 0 <= j < a.seen && a.events[j] == Established && QuietAfter(a.events, j, a.seen);
        assert j <= k && a.events[k] == Established;
      }
    }
  }

  /** A wait that returned 0 had seen the establishment. */
  lemma ZeroMeansEstablished(events: seq<CmEvent>)
    requires CmErrorRun(events) == 0
    ensures Established in events
  {
    var a := Attempt(true, 0, events, |events|);
    assert events[..|events|] == events;
    OpensIffEstablished(a);
  }

  // ----- protocol order

  /** What the connection manager may deliver next. */
  datatype Stage = Resolving | Routing | Connecting | Over

  predicate Allowed(stage: Stage, e: CmEvent) {
    match e
    case AddrResolved(_, _, _, _) => stage == Resolving
    case RouteResolved(_) => stage == Routing
    case Established => stage == Connecting
    case _ => true
  }

  function After(stage: Stage, e: CmEvent): Stage {
    match e
    case AddrResolved(device, cq, qp, route) =>
      if device && cq == 0 && qp == 0 && route == 0 then Routing else Over
    case RouteResolved(connect) => if connect == 0 then Connecting else Over
    case Closed => stage
    case _ => Over
  }

  function StageRun(events: seq<CmEvent>): Stage {
    if events == [] then Resolving else After(StageRun(events[..|events| - 1]), events[|events| - 1])
  }

  predicate InOrder(events: seq<CmEvent>) {
    events == [] ||
    (InOrder(events[..|events| - 1]) && Allowed(StageRun(events[..|events| - 1]), events[|events| - 1]))
  }

  /** How often a call was made. */
  function Times(calls: seq<Call>, c: Call): nat {
    if calls == [] then 0 else Times(calls[..|calls| - 1], c) + One(calls[|calls| - 1], c)
  }

  function One(d: Call, c: Call): nat {
    if d == c then 1 else 0
  }

  lemma {:induction false} TimesAppend(calls: seq<Call>, more: seq<Call>, c: Call)
    ensures Times(calls + more, c) == Times(calls, c) + Times(more, c)
  {
    if more == [] {
      assert calls + more == calls;
    } else {
      var n := |more| - 1;
      TimesAppend(calls, more[..n], c);
      assert (calls + more)[..|calls| + n] == calls + more[..n];
    }
  }

  lemma TimesShort(x: Call, y: Call, c: Call)
    ensures Times([x], c) == One(x, c) && Times([x, y], c) == One(x, c) + One(y, c)
  {
    assert [x][..0] == [] && [x, y][..1] == [x];
  }

  /** The handler got a CQ. */
  function Allocates(e: CmEvent): nat {
    if e.AddrResolved? && e.device && e.cq == 0 then 1 else 0
  }

  /** The handler got a QP. */
  function Creates(e: CmEvent): nat {
    if e.AddrResolved? && e.device && e.cq == 0 && e.qp == 0 then 1 else 0
  }

  /** A later verbs call of the handler failed, so that it freed the CQ again. */
  function Frees(e: CmEvent): nat {
    match e
    case AddrResolved(device, cq, qp, route) => if device && cq == 0 && (qp != 0 || route != 0) then 1 else 0
    case RouteResolved(connect) => if connect != 0 then 1 else 0
    case _ => 0
  }

  function Allocations(events: seq<CmEvent>): nat {
    if events == [] then 0 else Allocations(events[..|events| - 1]) + Allocates(events[|events| - 1])
  }

  function Releases(events: seq<CmEvent>): nat {
    if events == [] then 0 else Releases(events[..|events| - 1]) + Frees(events[|events| - 1])
  }

  lemma HandlerTimes(q: nat, e: CmEvent, c: Call)
    ensures Times(HandlerCalls(q, e), c) ==
      if c == AllocCq(q) then Allocates(e) else if c == FreeCq(q) then Frees(e)
      else if c == CreateQp(q) then Creates(e) else 0
  {
    TimesShort(AllocCq(q), FreeCq(q), c);
    TimesShort(FreeCq(q), FreeCq(q), c);
    TimesShort(AllocCq(q), CreateQp(q), c);
    assert [AllocCq(q), CreateQp(q)] + [FreeCq(q)] == [AllocCq(q), CreateQp(q), FreeCq(q)];
    TimesAppend([AllocCq(q), CreateQp(q)], [FreeCq(q)], c);
  }

  function Creations(events: seq<CmEvent>): nat {
    if events == [] then 0 else Creations(events[..|events| - 1]) + Creates(events[|events| - 1])
  }

  /** For every list of events, in protocol order or not: the handlers of queue q allocate its CQ
      once per address resolved with a device and a CQ to be had, create its QP once per such
      address with a QP to be had, free the CQ once per handler whose later verbs call failed, and
      make no other call; above all they never destroy a QP. */
  lemma {:induction false} HandlerCallsCounted(q: nat, events: seq<CmEvent>, c: Call)
    ensures Times(CallsRun(q, events), c) ==
      if c == AllocCq(q) then Allocations(events) else if c == FreeCq(q) then Releases(events)
      else if c == CreateQp(q) then Creations(events) else 0
  {
    if events != [] {
      var before, e := events[..|events| - 1], events[|events| - 1];
      HandlerCallsCounted(q, before, c);
      TimesAppend(CallsRun(q, before), HandlerCalls(q, e), c);
      HandlerTimes(q, e, c);
    }
  }

  /** How a queue's CQ stands at each stage. */
  predicate CqAccounts(stage: Stage, events: seq<CmEvent>) {
    && Releases(events) <= Allocations(events) <= 1 && Creations(events) <= Allocations(events)
    && (stage == Resolving ==> Allocations(events) == 0)
    && (stage == Routing || stage == Connecting ==>
          Allocations(events) == 1 && Releases(events) == 0 && Creations(events) == 1)
  }

  lemma {:induction false} OrderKeepsAccounts(events: seq<CmEvent>)
    requires InOrder(events)
    ensures CqAccounts(StageRun(events), events)
    ensures Established in events ==>
      StageRun(events) == Over && Allocations(events) == 1 && Releases(events) == 0 && Creations(events) == 1
  {
    if events != [] {
      var n := |events| - 1;
      OrderKeepsAccounts(events[..n]);
      assert Established in events <==> Established in events[..n] || events[n] == Established;
    }
  }

  /** In protocol order a queue's CQ is allocated at most once and freed at most once during
      setup, and a queue that was established still owns its CQ. */
  lemma CqFreedAtMostOnce(q: nat, events: seq<CmEvent>)
    requires InOrder(events)
    ensures Times(CallsRun(q, events), FreeCq(q)) <= Times(CallsRun(q, events), AllocCq(q)) <= 1
    ensures Established in events ==>
      Times(CallsRun(q, events), AllocCq(q)) == 1 && Times(CallsRun(q, events), FreeCq(q)) == 0
  {
    OrderKeepsAccounts(events);
    HandlerCallsCounted(q, events, AllocCq(q));
    HandlerCallsCounted(q, events, FreeCq(q));
  }

  /** The calls of one attempt, counted. */
  lemma AttemptTimes(q: nat, a: Attempt, c: Call)
    requires WellFormed(a)
    ensures Times(AttemptCalls(q, a), c) ==
      if !a.created || c.q != q then 0
      else match c
        case CreateId(_) => 1
        case DestroyId(_) => if Outcome(a) != 0 then 1 else 0
        case AllocCq(_) => if a.resolve != 0 then 0 else Allocations(a.events)
        case FreeCq(_) => if a.resolve != 0 then 0 else Releases(a.events)
        case CreateQp(_) => if a.resolve != 0 then 0 else Creations(a.events)
        case _ => 0
  {
    TimesShort(CreateId(q), DestroyId(q), c);
    TimesShort(DestroyId(q), DestroyId(q), c);
    var calls := CallsRun(q, a.events);
    HandlerCallsCounted(q, a.events, c);
    TimesAppend([CreateId(q)], calls, c);
    TimesAppend([CreateId(q)] + calls, [DestroyId(q)], c);
    TimesAppend([CreateId(q)] + calls, [], c);
  }

  /** The address was resolved, with a device and a CQ to be had. */
  predicate Allocating(e: CmEvent) {
    e.AddrResolved? && e.device && e.cq == 0
  }

  /** The server's route was resolved and rdma_connect failed. */
  predicate ConnectFailed(events: seq<CmEvent>) {
    exists m :: 0 <= m < |events| && events[m].RouteResolved? && events[m].connect != 0
  }

  /** What protocol order says of the events so far. */
  ghost predicate StageRight(stage: Stage, events: seq<CmEvent>) {
    && (forall i, j | 0 <= i < j < |events| :: !(events[i].AddrResolved? && events[j].AddrResolved?))
    && (stage == Resolving ==> forall k | 0 <= k < |events| :: !events[k].AddrResolved?)
    && (stage == Resolving || stage == Routing ==> forall k | 0 <= k < |events| :: !events[k].RouteResolved?)
    && (stage == Routing || stage == Connecting ==>
          !ConnectFailed(events) &&
          exists k :: 0 <= k < |events| && Allocating(events[k]) && events[k].qp == 0 && events[k].route == 0)
    && (ConnectFailed(events) ==>
          exists k :: 0 <= k < |events| && Allocating(events[k]) && events[k].qp == 0 && events[k].route == 0)
  }

  lemma ConnectFailedNext(before: seq<CmEvent>, e: CmEvent)
    ensures ConnectFailed(before + [e]) <==> ConnectFailed(before) || (e.RouteResolved? && e.connect != 0)
  {
    var all := before + [e];
    if ConnectFailed(before) {
      var m :| 0 <= m < |before| && before[m].RouteResolved? && before[m].connect != 0;
      assert all[m] == before[m];
    }
    if e.RouteResolved? && e.connect != 0 { assert all[|before|] == e; }
  }

  lemma {:induction false} OrderKeepsStage(events: seq<CmEvent>)
    requires InOrder(events)
    ensures StageRight(StageRun(events), events)
  {
    if events != [] {
      var n := |events| - 1;
      var before, e := events[..n], events[n];
      OrderKeepsStage(before);
      assert events == before + [e];
      ConnectFailedNext(before, e);
      if exists k :: 0 <= k < |before| && Allocating(before[k]) && before[k].qp == 0 && before[k].route == 0 {
        var k :| 0 <= k < |before| && Allocating(before[k]) && before[k].qp == 0 && before[k].route == 0;
        assert events[k] == before[k];
      }
    }
  }

  /** The CQ, the QP if it could be had, and the release of the CQ if the QP, the route or the
      connect call failed. */
  function CallsFor(q: nat, e: CmEvent, connectFailed: bool): seq<Call>
    requires e.AddrResolved?
  {
    [AllocCq(q)] + (if e.qp == 0 then [CreateQp(q)] else [])
      + (if e.qp != 0 || e.route != 0 || connectFailed then [FreeCq(q)] else [])
  }

  /** In protocol order, the handlers' calls are exactly these, in this order: none if no address
      was resolved with a device and a CQ, else those above. */
  ghost predicate CallsRight(q: nat, events: seq<CmEvent>) {
    && ((forall k | 0 <= k < |events| :: !Allocating(events[k])) ==> CallsRun(q, events) == [])
    && (forall k | 0 <= k < |events| && Allocating(events[k]) ::
          CallsRun(q, events) == CallsFor(q, events[k], ConnectFailed(events)))
  }

  lemma FirstAddress(q: nat, before: seq<CmEvent>, e: CmEvent)
    requires CallsRight(q, before) && StageRight(Resolving, before) && Allocating(e)
    ensures CallsRight(q, before + [e])
  {
    var all := before + [e];
    assert all[..|before|] == before && all[|before|] == e;
    ConnectFailedNext(before, e);
    assert !ConnectFailed(before);
    assert CallsRun(q, all) == [] + HandlerCalls(q, e);
    assert forall k | 0 <= k < |before| :: all[k] == before[k];
  }

  lemma AddressKnown(q: nat, before: seq<CmEvent>, e: CmEvent)
    requires CallsRight(q, before) && !Allocating(e) && !(e.RouteResolved? && e.connect != 0)
    ensures CallsRight(q, before + [e])
  {
    var all := before + [e];
    assert all[..|before|] == before && all[|before|] == e;
    ConnectFailedNext(before, e);
    assert HandlerCalls(q, e) == [] && CallsRun(q, all) == CallsRun(q, before);
    assert forall k | 0 <= k < |before| :: all[k] == before[k];
  }

  lemma ConnectFails(q: nat, before: seq<CmEvent>, e: CmEvent)
    requires CallsRight(q, before) && StageRight(Routing, before) && e.RouteResolved? && e.connect != 0
    ensures CallsRight(q, before + [e])
  {
    var all := before + [e];
    assert all[..|before|] == before && all[|before|] == e;
    ConnectFailedNext(before, e);
    var k :| 0 <= k < |before| && Allocating(before[k]) && before[k].qp == 0 && before[k].route == 0;
    assert CallsRun(q, before) == CallsFor(q, before[k], false);
    assert all[k] == before[k];
    forall j | 0 <= j < |all| && Allocating(all[j]) ensures j == k {
      if j < |before| { assert all[j] == before[j]; }
    }
  }

  lemma {:induction false} HandlerCallsInOrder(q: nat, events: seq<CmEvent>)
    requires InOrder(events)
    ensures CallsRight(q, events)
  {
    if events != [] {
      var n := |events| - 1;
      var before, e := events[..n], events[n];
      OrderKeepsStage(before);
      HandlerCallsInOrder(q, before);
      assert events == before + [e];
      if Allocating(e) {
        FirstAddress(q, before, e);
      } else if e.RouteResolved? && e.connect != 0 {
        ConnectFails(q, before, e);
      } else {
        AddressKnown(q, before, e);
      }
    }
  }

  /** The id comes first, and a failed attempt destroys it last. */
  lemma IdBracketsAttempt(q: nat, a: Attempt)
    requires WellFormed(a)
    ensures var calls := AttemptCalls(q, a);
      if !a.created then calls == []
      else |calls| > 0 && calls[0] == CreateId(q) && (Outcome(a) != 0 ==> |calls| > 1 && calls[|calls| - 1] == DestroyId(q))
  {
  }

  /** A queue whose setup fails destroys its id and nothing else after the handlers are done: it
      leaks a CQ exactly if it got more of them than handlers failed in a later verbs call, and
      its QP exactly if it ever got one. After a timeout, a signal, a rejection or an error event
      both are leaked. */
  lemma FailedQueueLeaksIff(q: nat, a: Attempt)
    requires WellFormed(a) && Outcome(a) != 0
    ensures Times(AttemptCalls(q, a), FreeCq(q)) < Times(AttemptCalls(q, a), AllocCq(q)) <==>
      a.created && a.resolve == 0 && Releases(a.events) < Allocations(a.events)
    ensures Times(AttemptCalls(q, a), DestroyQp(q)) < Times(AttemptCalls(q, a), CreateQp(q)) <==>
      a.created && a.resolve == 0 && exists k :: 0 <= k < |a.events| && Creates(a.events[k]) == 1
    ensures Times(AttemptCalls(q, a), DestroyId(q)) == Times(AttemptCalls(q, a), CreateId(q))
  {
    AttemptTimes(q, a, FreeCq(q));
    AttemptTimes(q, a, AllocCq(q));
    AttemptTimes(q, a, DestroyQp(q));
    AttemptTimes(q, a, CreateQp(q));
    AttemptTimes(q, a, DestroyId(q));
    AttemptTimes(q, a, CreateId(q));
    SomeCreation(a.events);
  }

  lemma {:induction false} SomeCreation(events: seq<CmEvent>)
    ensures Creations(events) > 0 <==> exists k :: 0 <= k < |events| && Creates(events[k]) == 1
  {
    if events != [] {
      var n := |events| - 1;
      SomeCreation(events[..n]);
      if Creations(events[..n]) > 0 {
        var k :| 0 <= k < n && Creates(events[..n][k]) == 1;
        assert Creates(events[k]) == 1;
      }
      if exists k :: 0 <= k < |events| && Creates(events[k]) == 1 {
        var k :| 0 <= k < |events| && Creates(events[k]) == 1;
        if k < n { assert Creates(events[..n][k]) == 1; }
      }
    }
  }

  // ----- all queues

  /** sswap_rdma_stop_queue and sswap_rdma_free_queue. */
  function Release(k: nat): seq<Call> {
    [Disconnect(k), DestroyQp(k)] + [FreeCq(k), DestroyId(k)]
  }

  /** Stop and free queues i-1 down to 0. */
  function Rollback(i: nat): seq<Call> {
    if i == 0 then []
    else Release(i - 1) + Rollback(i - 1)
  }

  predicate AllWellFormed(attempts: seq<Attempt>) {
    forall k | 0 <= k < |attempts| :: WellFormed(attempts[k])
  }

  function Concat(lists: seq<seq<Call>>): seq<Call> {
    if lists == [] then [] else Concat(lists[..|lists| - 1]) + lists[|lists| - 1]
  }

  /** The calls of each of the first n attempts. */
  function AttemptLists(attempts: seq<Attempt>, n: nat): seq<seq<Call>>
    requires n <= |attempts| && AllWellFormed(attempts)
  {
    seq(n, k requires 0 <= k < n => AttemptCalls(k, attempts[k]))
  }

  function SetupCalls(attempts: seq<Attempt>, n: nat): seq<Call>
    requires n <= |attempts| && AllWellFormed(attempts)
  {
    Concat(AttemptLists(attempts, n))
  }

  lemma SetupCallsNext(attempts: seq<Attempt>, n: nat)
    requires n < |attempts| && AllWellFormed(attempts)
    ensures SetupCalls(attempts, n + 1) == SetupCalls(attempts, n) + AttemptCalls(n, attempts[n])
  {
    assert AttemptLists(attempts, n + 1)[..n] == AttemptLists(attempts, n);
  }

  /** i is the first queue that fails to open, |attempts| if none does. */
  predicate FirstFailure(attempts: seq<Attempt>, i: nat)
    requires AllWellFormed(attempts)
  {
    && i <= |attempts|
    && (forall k | 0 <= k < i :: Outcome(attempts[k]) == 0)
    && (i < |attempts| ==> Outcome(attempts[i]) != 0)
  }

  lemma RunsNext(q: nat, events: seq<CmEvent>, k: nat)
    requires k < |events|
    ensures CmErrorRun(events[..k + 1]) == CmErrorAfter(CmErrorRun(events[..k]), events[k])
    ensures CallsRun(q, events[..k + 1]) == CallsRun(q, events[..k]) + HandlerCalls(q, events[k])
  {
    assert events[..k + 1][..k] == events[..k];
  }

  lemma Regroup(x: seq<Call>, y: seq<Call>, z: seq<Call>)
    ensures (x + y) + z == x + (y + z)
  {
  }

  class Ctrl {
    var cmError: int
    var calls: seq<Call>

    constructor ()
      ensures calls == []
    {
      cmError, calls := 0, [];
    }

    /** sswap_rdma_cm_handler for queue q. */
    method CmHandler(q: nat, e: CmEvent)
      modifies this
      ensures cmError == CmErrorAfter(old(cmError), e) && calls == old(calls) + HandlerCalls(q, e)
    {
      var error := 0;
      match e {
      case AddrResolved(device, cq, qp, route) =>
        if !device {
          error := -ENODEV;
        } else if cq != 0 {
          error := cq;
        } else {
          calls := calls + [AllocCq(q)];
          if qp != 0 {
            calls := calls + [FreeCq(q)];
            error := qp;
          } else {
            calls := calls + [CreateQp(q)];
            if route != 0 {
              calls := calls + [FreeCq(q)];
            }
          }
        }
      case RouteResolved(connect) =>
        if connect != 0 {
          calls := calls + [FreeCq(q)];
        }
      case Established =>
        cmError := 0;
        return;
      case Failure =>
        error := -ECONNRESET;
      case _ =>
      }
      if error != 0 {
        cmError := error;
      }
    }

    method HandleNth(q: nat, events: seq<CmEvent>, k: nat, ghost earlier: seq<Call>)
      requires k < |events| && cmError == CmErrorRun(events[..k]) && calls == earlier + CallsRun(q, events[..k])
      modifies this
      ensures cmError == CmErrorRun(events[..k + 1]) && calls == earlier + CallsRun(q, events[..k + 1])
    {
      RunsNext(q, events, k);
      Regroup(earlier, CallsRun(q, events[..k]), HandlerCalls(q, events[k]));
      CmHandler(q, events[k]);
    }

    /** sswap_rdma_wait_for_cm: events arrive; when the wait ends, cm_error is read; the handler
        may still see later events before the queue is used or its id destroyed. */
    method WaitForCm(q: nat, events: seq<CmEvent>, seen: nat) returns (ret: int)
      requires seen <= |events| && cmError == -ETIMEDOUT
      modifies this
      ensures ret == CmErrorRun(events[..seen]) && calls == old(calls) + CallsRun(q, events)
    {
      var k := 0;
      ret := cmError;
      while k < |events|
        invariant k <= |events|
        invariant cmError == CmErrorRun(events[..k]) && calls == old(calls) + CallsRun(q, events[..k])
        invariant if k <= seen then ret == cmError else ret == CmErrorRun(events[..seen])
      {
        HandleNth(q, events, k, old(calls));
        k := k + 1;
        if k <= seen { ret := cmError; }
      }
      assert events[..k] == events;
    }

    /** sswap_rdma_init_queue. */
    method InitQueue(q: nat, a: Attempt) returns (ret: int)
      requires WellFormed(a)
      modifies this
      ensures ret == Outcome(a) && calls == old(calls) + AttemptCalls(q, a)
    {
      if !a.created { return -ENODEV; }
      calls := calls + [CreateId(q)];
      cmError := -ETIMEDOUT;
      if a.resolve != 0 {
        ret := a.resolve;
      } else {
        ret := WaitForCm(q, a.events, a.seen);
      }
      if ret != 0 {
        calls := calls + [DestroyId(q)];
      }
    }

    /** sswap_rdma_stop_queue and sswap_rdma_free_queue. */
    method StopAndFree(k: nat)
      modifies this`calls
      ensures calls == old(calls) + Release(k)
    {
      calls := calls + [Disconnect(k)];
      calls := calls + [DestroyQp(k)];
      calls := calls + [FreeCq(k)];
      calls := calls + [DestroyId(k)];
    }

    /** The rollback loop: queues i-1 down to 0. */
    method FreeQueues(i: nat)
      modifies this`calls
      ensures calls == old(calls) + Rollback(i)
    {
      var k := i;
      ghost var undone: seq<Call> := [];
      while k > 0
        invariant 0 <= k <= i && undone + Rollback(k) == Rollback(i) && calls == old(calls) + undone
      {
        k := k - 1;
        StopAndFree(k);
        assert undone + Rollback(k + 1) == (undone + Release(k)) + Rollback(k);
        undone := undone + Release(k);
      }
    }

    /** sswap_rdma_init_queues: opens the queues in order; at the first failure, stops and frees
        exactly the earlier ones, latest first. */
    method InitQueues(attempts: seq<Attempt>) returns (ret: int, ghost failed: nat)
      requires calls == [] && AllWellFormed(attempts)
      modifies this
      ensures FirstFailure(attempts, failed)
      ensures failed == |attempts| ==> ret == 0 && calls == SetupCalls(attempts, |attempts|)
      ensures failed < |attempts| ==> ret == Outcome(attempts[failed]) && calls == FailedSetup(attempts, failed)
    {
      var i := 0;
      ret := 0;
      while i < |attempts|
        invariant i <= |attempts| && ret == 0 && calls == SetupCalls(attempts, i)
        invariant forall k | 0 <= k < i :: Outcome(attempts[k]) == 0
      {
        ret := InitQueue(i, attempts[i]);
        SetupCallsNext(attempts, i);
        if ret != 0 {
          FreeQueues(i);
          failed := i;
          return;
        }
        i := i + 1;
      }
      failed := i;
    }
  }

  // ----- what a failed setup leaves behind

  lemma {:induction false} RollbackCounts(i: nat, c: Call)
    ensures Times(Rollback(i), c) ==
      if c.q < i && (c.Disconnect? || c.DestroyQp? || c.FreeCq? || c.DestroyId?) then 1 else 0
  {
    if i > 0 {
      RollbackCounts(i - 1, c);
      TimesAppend(Release(i - 1), Rollback(i - 1), c);
      TimesAppend([Disconnect(i - 1), DestroyQp(i - 1)], [FreeCq(i - 1), DestroyId(i - 1)], c);
      TimesShort(Disconnect(i - 1), DestroyQp(i - 1), c);
      TimesShort(FreeCq(i - 1), DestroyId(i - 1), c);
    }
  }

  lemma {:induction false} ConcatCounts(lists: seq<seq<Call>>, c: Call)
    requires forall k | 0 <= k < |lists| && k != c.q :: Times(lists[k], c) == 0
    ensures Times(Concat(lists), c) == if c.q < |lists| then Times(lists[c.q], c) else 0
  {
    if lists != [] {
      var n := |lists| - 1;
      ConcatCounts(lists[..n], c);
      TimesAppend(Concat(lists[..n]), lists[n], c);
    }
  }

  lemma SetupCounts(attempts: seq<Attempt>, n: nat, c: Call)
    requires n <= |attempts| && AllWellFormed(attempts)
    ensures c.q >= n ==> Times(SetupCalls(attempts, n), c) == 0
    ensures c.q < n ==> Times(SetupCalls(attempts, n), c) == Times(AttemptCalls(c.q, attempts[c.q]), c)
  {
    var lists := AttemptLists(attempts, n);
    forall k | 0 <= k < n && k != c.q ensures Times(lists[k], c) == 0 {
      AttemptTimes(k, attempts[k], c);
    }
    ConcatCounts(lists, c);
  }

  /** All the calls made when queue i is the first to fail. */
  function FailedSetup(attempts: seq<Attempt>, i: nat): seq<Call>
    requires AllWellFormed(attempts) && i < |attempts|
  {
    SetupCalls(attempts, i + 1) + Rollback(i)
  }

  lemma FailedSetupCounts(attempts: seq<Attempt>, i: nat, c: Call)
    requires AllWellFormed(attempts) && FirstFailure(attempts, i) && i < |attempts|
    ensures Times(FailedSetup(attempts, i), c) ==
      (if c.q <= i then Times(AttemptCalls(c.q, attempts[c.q]), c) else 0) +
      (if c.q < i && !c.CreateId? && !c.AllocCq? && !c.CreateQp? then 1 else 0)
  {
    TimesAppend(SetupCalls(attempts, i + 1), Rollback(i), c);
    RollbackCounts(i, c);
    SetupCounts(attempts, i + 1, c);
  }

  /** Stopping and freeing one queue before another, and one queue's calls in their order. */
  predicate Before(c: Call, d: Call) {
    c.q > d.q || (c.q == d.q && Rank(c) < Rank(d))
  }

  function Rank(c: Call): nat {
    match c
    case Disconnect(_) => 0
    case DestroyQp(_) => 1
    case FreeCq(_) => 2
    case _ => 3
  }

  lemma {:induction false} RollbackDescends(i: nat, p: nat, r: nat)
    requires p < r < |Rollback(i)|
    ensures Before(Rollback(i)[p], Rollback(i)[r])
  {
    if p >= 4 {
      RollbackDescends(i - 1, p - 4, r - 4);
    } else if r >= 4 {
      RollbackBelow(i - 1, r - 4);
    }
  }

  lemma {:induction false} RollbackBelow(i: nat, p: nat)
    requires p < |Rollback(i)|
    ensures Rollback(i)[p].q < i
  {
    if p >= 4 { RollbackBelow(i - 1, p - 4); }
  }

  lemma {:induction false} TimesPositive(calls: seq<Call>, p: nat)
    requires p < |calls|
    ensures Times(calls, calls[p]) > 0
  {
    if p < |calls| - 1 { TimesPositive(calls[..|calls| - 1], p); }
  }

  /** A call that, for a queue opened before queue i failed, only the rollback makes. */
  predicate Undoes(c: Call, i: nat) {
    c.q < i && (c.Disconnect? || c.DestroyQp? || c.DestroyId?)
  }

  lemma UndoneInRollback(attempts: seq<Attempt>, i: nat, p: nat)
    requires AllWellFormed(attempts) && FirstFailure(attempts, i) && i < |attempts|
    requires p < |FailedSetup(attempts, i)| && Undoes(FailedSetup(attempts, i)[p], i)
    ensures p >= |SetupCalls(attempts, i + 1)|
  {
    var setup := SetupCalls(attempts, i + 1);
    if p < |setup| {
      var c := setup[p];
      TimesPositive(setup, p);
      SetupCounts(attempts, i + 1, c);
      AttemptTimes(c.q, attempts[c.q], c);
    }
  }

  /** Each earlier queue is undone after every later one, and in the order disconnect, destroy
      the QP, destroy the id. */
  lemma UndoneInOrder(attempts: seq<Attempt>, i: nat, p: nat, r: nat)
    requires AllWellFormed(attempts) && FirstFailure(attempts, i) && i < |attempts|
    requires p < r < |FailedSetup(attempts, i)|
    requires Undoes(FailedSetup(attempts, i)[p], i) && Undoes(FailedSetup(attempts, i)[r], i)
    ensures Before(FailedSetup(attempts, i)[p], FailedSetup(attempts, i)[r])
  {
    var start := |SetupCalls(attempts, i + 1)|;
    UndoneInRollback(attempts, i, p);
    RollbackDescends(i, p - start, r - start);
  }

  /** What a failed setup leaves of the CQ and the QP of queue k. */
  ghost predicate Balanced(calls: seq<Call>, a: Attempt, k: nat) {
    && Times(calls, AllocCq(k)) == Allocations(a.events) && Times(calls, FreeCq(k)) == Releases(a.events) + 1
    && Times(calls, CreateQp(k)) == Creations(a.events) && Times(calls, DestroyQp(k)) == 1
    && (InOrder(a.events) ==>
          Times(calls, AllocCq(k)) == Times(calls, FreeCq(k)) == Times(calls, CreateQp(k)) == Times(calls, DestroyQp(k)) == 1)
  }

  lemma OpenedBalanced(attempts: seq<Attempt>, i: nat, k: nat)
    requires AllWellFormed(attempts) && FirstFailure(attempts, i) && k < i < |attempts|
    ensures Balanced(FailedSetup(attempts, i), attempts[k], k)
  {
    var a := attempts[k];
    FailedSetupCounts(attempts, i, AllocCq(k));
    FailedSetupCounts(attempts, i, FreeCq(k));
    FailedSetupCounts(attempts, i, CreateQp(k));
    FailedSetupCounts(attempts, i, DestroyQp(k));
    AttemptTimes(k, a, AllocCq(k));
    AttemptTimes(k, a, FreeCq(k));
    AttemptTimes(k, a, CreateQp(k));
    AttemptTimes(k, a, DestroyQp(k));
    OpensIffEstablished(a);
    if InOrder(a.events) { OrderKeepsAccounts(a.events); }
  }

  /** Queue by queue: whatever is called for an earlier queue is called before. */
  lemma {:induction false} SetupAscends(attempts: seq<Attempt>, n: nat, p: nat, r: nat)
    requires n <= |attempts| && AllWellFormed(attempts) && p < r < |SetupCalls(attempts, n)|
    ensures SetupCalls(attempts, n)[p].q <= SetupCalls(attempts, n)[r].q < n
  {
    var m := n - 1;
    SetupCallsNext(attempts, m);
    var earlier, calls := SetupCalls(attempts, m), SetupCalls(attempts, n);
    CallBelongs(attempts, n, p);
    CallBelongs(attempts, n, r);
    if r < |earlier| {
      SetupAscends(attempts, m, p, r);
    } else {
      TimesPositive(AttemptCalls(m, attempts[m]), r - |earlier|);
      AttemptTimes(m, attempts[m], calls[r]);
    }
  }

  lemma CallBelongs(attempts: seq<Attempt>, n: nat, p: nat)
    requires n <= |attempts| && AllWellFormed(attempts) && p < |SetupCalls(attempts, n)|
    ensures SetupCalls(attempts, n)[p].q < n
  {
    TimesPositive(SetupCalls(attempts, n), p);
    SetupCounts(attempts, n, SetupCalls(attempts, n)[p]);
  }

  /** If queue i is the first to fail, whatever events came in whatever order: every id created so
      far was destroyed exactly once; queues were opened in ascending order; queues 0..i-1 were each
      stopped once and their QP destroyed once, later queues before earlier ones; queue i was not
      stopped; nothing of a later queue was touched. The rollback frees each earlier queue's CQ and
      destroys its QP once, which balances their creation if its events came in protocol order. */
  lemma RollbackIsExact(attempts: seq<Attempt>, i: nat)
    requires AllWellFormed(attempts) && FirstFailure(attempts, i) && i < |attempts|
    ensures var calls := FailedSetup(attempts, i);
      && (forall k: nat :: Times(calls, DestroyId(k)) == Times(calls, CreateId(k)) <= 1)
      && (forall k: nat :: Times(calls, Disconnect(k)) == Times(calls, DestroyQp(k)) == if k < i then 1 else 0)
      && (forall k: nat | k < i :: Balanced(calls, attempts[k], k))
      && (forall c: Call | c.q > i :: Times(calls, c) == 0)
      && (forall p, r | 0 <= p < r < |calls| && Undoes(calls[p], i) && Undoes(calls[r], i) :: Before(calls[p], calls[r]))
      && (forall p, r | 0 <= p < r < |SetupCalls(attempts, i + 1)| :: calls[p].q <= calls[r].q)
  {
    var calls := FailedSetup(attempts, i);
    forall k: nat
      ensures Times(calls, DestroyId(k)) == Times(calls, CreateId(k)) <= 1
      ensures Times(calls, Disconnect(k)) == Times(calls, DestroyQp(k)) == if k < i then 1 else 0
    {
      EachIdAndStop(attempts, i, k);
    }
    forall k: nat | k < i ensures Balanced(calls, attempts[k], k) {
      OpenedBalanced(attempts, i, k);
    }
    forall c: Call | c.q > i ensures Times(calls, c) == 0 {
      FailedSetupCounts(attempts, i, c);
    }
    forall p, r | 0 <= p < r < |calls| && Undoes(calls[p], i) && Undoes(calls[r], i)
      ensures Before(calls[p], calls[r])
    {
      UndoneInOrder(attempts, i, p, r);
    }
    forall p, r | 0 <= p < r < |SetupCalls(attempts, i + 1)| ensures calls[p].q <= calls[r].q {
      SetupAscends(attempts, i + 1, p, r);
    }
  }

  lemma EachIdAndStop(attempts: seq<Attempt>, i: nat, k: nat)
    requires AllWellFormed(attempts) && FirstFailure(attempts, i) && i < |attempts|
    ensures var calls := FailedSetup(attempts, i);
      && Times(calls, DestroyId(k)) == Times(calls, CreateId(k)) <= 1
      && Times(calls, Disconnect(k)) == Times(calls, DestroyQp(k)) == if k < i then 1 else 0
  {
    FailedSetupCounts(attempts, i, DestroyId(k));
    FailedSetupCounts(attempts, i, CreateId(k));
    FailedSetupCounts(attempts, i, Disconnect(k));
    FailedSetupCounts(attempts, i, DestroyQp(k));
    if k <= i {
      AttemptTimes(k, attempts[k], DestroyId(k));
      AttemptTimes(k, attempts[k], CreateId(k));
      AttemptTimes(k, attempts[k], Disconnect(k));
      AttemptTimes(k, attempts[k], DestroyQp(k));
    }
  }
}
