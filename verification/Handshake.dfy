/** Client and server composed: the client opens its queues one at a time and rolls back on
    failure, the connection manager delivers each message at most once but as late as it likes,
    the server answers whatever event comes next (code/drivers/fastswap_rdma.c,
    code/farmemserver/rmserver.c). */
module Handshake {
  import opened Wrappers
  import opened FarMemoryServer
  import Cm = CmSetup

  /** sswap_rdma_init_queues: about to open the next queue; waiting, with the events its handler
      has seen and, once the wait has failed, how many of them came before its end; undoing queues
      k-1..0; done. Then sswap_rdma_recv_remotemr: its receive is posted on queue 0, and it has
      the region. */
  datatype Client =
    | Opening
    | Awaiting(seen: seq<Cm.CmEvent>, ended: Option<nat>)
    | RollingBack(k: nat)
    | Opened | Receiving | Ready

  /** attempts: the queues tried so far, one attempt each; requests: sent, not delivered; replies:
      accepted by the server, the client not told yet; confirms: the client told, the server not;
      closings: disconnected by the client, the server not told; regions: connections on which a
      region message is under way; events: what the server has handled; main: where that left it. */
  datatype State = State(n: nat, client: Client, attempts: seq<Cm.Attempt>, requests: set<nat>, replies: set<nat>,
                         confirms: set<nat>, closings: set<nat>, regions: set<nat>,
                         server: Server, main: Progress, events: seq<Event>)

  datatype Action =
    // the client's thread
    | StartQueue
    | FailToStart(created: bool, resolve: int)
    | EndWait
    | DestroyFailedId
    | StopQueue
    | PostReceive
    // its event handler: for the queue being opened, before or after the end of the wait, and for
    // a queue that is open
    | ClientEvent(e: Cm.CmEvent)
    | LateEvent(q: nat, e: Cm.CmEvent)
    // the server's main
    | DeliverRequest(c: nat)
    | ServerEstablished(c: nat)
    | DeliverDisconnect(c: nat)
    | ServerUnknown
    // the network
    | DeliverRegion(c: nat)

  /** Queue q has been opened and not yet undone. */
  predicate IsOpen(s: State, q: nat) {
    && q < |s.attempts| && Cm.WellFormed(s.attempts[q]) && Cm.Outcome(s.attempts[q]) == 0
    && (s.client.RollingBack? ==> q < s.client.k)
  }

  predicate Enabled(s: State, a: Action) {
    match a
    case StartQueue => s.client.Opening?
    case FailToStart(created, resolve) => s.client.Opening? && (!created || resolve != 0)
    case EndWait => s.client.Awaiting? && s.client.ended.None?
    case DestroyFailedId => s.client.Awaiting? && s.client.ended.Some? && s.client.ended.value <= |s.client.seen|
    case StopQueue => s.client.RollingBack? && s.client.k > 0
    case PostReceive => s.client == Opened
    case ClientEvent(e) =>
      && s.client.Awaiting? && Cm.Allowed(Cm.StageRun(s.client.seen), e)
      && (e == Cm.Established ==> |s.attempts| in s.replies)
    case LateEvent(q, e) => IsOpen(s, q) && Cm.Allowed(Cm.StageRun(s.attempts[q].events), e)
    case DeliverRequest(c) => Running(s.main) && c in s.requests
    case ServerEstablished(c) => Running(s.main) && c in s.confirms
    case DeliverDisconnect(c) => Running(s.main) && c in s.closings && c < s.server.ctr   // never before its request
    case ServerUnknown => Running(s.main)
    case DeliverRegion(c) => c in s.regions && c == 0 && s.client == Receiving   // only queue 0 has a receive
  }

  /** The server handles one event; a new region message leaves on the connection of its slot. */
  function ServerHandles(s: State, e: Event): State {
    var t := OnEvent(s.server, e);
    var sent := |t.effects| > |s.server.effects| && t.effects[|t.effects| - 1] == SendRegion(0)
                && |t.slots| > 0 && t.slots[0].conn.Some?;
    s.(server := t, main := Moved(s.main, t, e), events := s.events + [e],
       regions := if sent then s.regions + {t.slots[0].conn.value} else s.regions)
  }

  /** The handler sees an event: a resolved route sends the request, an establishment confirms. */
  function ClientHandles(s: State, e: Cm.CmEvent): State
    requires s.client.Awaiting?
  {
    var i := |s.attempts|;
    s.(client := s.client.(seen := s.client.seen + [e]),
       requests := if e == Cm.RouteResolved(0) then s.requests + {i} else s.requests,
       replies := if e == Cm.Established then s.replies - {i} else s.replies,
       confirms := if e == Cm.Established then s.confirms + {i} else s.confirms)
  }

  /** The wait is over and cm_error is read. */
  function WaitEnds(s: State): State
    requires s.client.Awaiting?
  {
    var seen := s.client.seen;
    var a := Cm.Attempt(true, 0, seen, |seen|);
    if Cm.Outcome(a) == 0 then
      s.(attempts := s.attempts + [a], client := if |s.attempts| + 1 < s.n then Opening else Opened)
    else s.(client := Awaiting(seen, Some(|seen|)))
  }

  /** rdma_destroy_id after a failed wait. Destroying the id of an established connection
      disconnects it. */
  function IdDestroyed(s: State): State
    requires Enabled(s, DestroyFailedId)
  {
    var i, seen := |s.attempts|, s.client.seen;
    s.(attempts := s.attempts + [Cm.Attempt(true, 0, seen, s.client.ended.value)], client := RollingBack(i),
       closings := if Cm.Established in seen then s.closings + {i} else s.closings)
  }

  function Apply(s: State, a: Action): State
    requires Enabled(s, a)
  {
    match a
    case StartQueue => s.(client := Awaiting([], None))
    case FailToStart(created, resolve) =>
      s.(attempts := s.attempts + [Cm.Attempt(created, resolve, [], 0)], client := RollingBack(|s.attempts|))
    case EndWait => WaitEnds(s)
    case DestroyFailedId => IdDestroyed(s)
    case StopQueue => s.(client := RollingBack(s.client.k - 1), closings := s.closings + {s.client.k - 1})
    case PostReceive => s.(client := Receiving)
    case ClientEvent(e) => ClientHandles(s, e)
    case LateEvent(q, e) => s.(attempts := s.attempts[q := s.attempts[q].(events := s.attempts[q].events + [e])])
    case DeliverRequest(c) =>
      ServerHandles(s, ConnectRequest(c)).(requests := s.requests - {c}, replies := s.replies + {c})
    case ServerEstablished(c) => ServerHandles(s, Established(c)).(confirms := s.confirms - {c})
    case DeliverDisconnect(c) => ServerHandles(s, Disconnected(c)).(closings := s.closings - {c})
    case ServerUnknown => ServerHandles(s, Unknown)
    case DeliverRegion(c) => s.(regions := s.regions - {c}, client := Ready)
  }

  /** A server started for n > 0 queues and a client that opens as many. */
  predicate Init(s: State) {
    s.n > 0 && s == State(s.n, Opening, [], {}, {}, {}, {}, {}, Fresh(s.n), Waiting(0, s.n), [])
  }

  // ----- the client's side

  predicate Requested(seen: seq<Cm.CmEvent>) {
    Cm.RouteResolved(0) in seen
  }

  /** In protocol order the request goes out once, and the establishment comes after it. */
  lemma {:induction false} StageFacts(seen: seq<Cm.CmEvent>)
    requires Cm.InOrder(seen)
    ensures Cm.StageRun(seen) == Cm.Resolving || Cm.StageRun(seen) == Cm.Routing ==> !Requested(seen)
    ensures Cm.StageRun(seen) == Cm.Connecting ==> Requested(seen) && Cm.Established !in seen
    ensures Cm.Established in seen ==> Requested(seen) && Cm.StageRun(seen) == Cm.Over
  {
    if seen != [] {
      var n := |seen| - 1;
      StageFacts(seen[..n]);
      assert seen == seen[..n] + [seen[n]];
    }
  }

  /** The attempts made so far are those of sswap_rdma_init_queues: in order, up to the first
      failure, which starts the rollback below it. */
  ghost predicate AttemptsRight(s: State) {
    && Cm.AllWellFormed(s.attempts)
    && (forall k | 0 <= k < |s.attempts| :: Cm.InOrder(s.attempts[k].events))
    && (match s.client
        case Opening => |s.attempts| < s.n && Cm.FirstFailure(s.attempts, |s.attempts|)
        case Awaiting(seen, ended) =>
          && |s.attempts| < s.n && Cm.FirstFailure(s.attempts, |s.attempts|) && Cm.InOrder(seen)
          && (ended.Some? ==> ended.value <= |seen| && Cm.CmErrorRun(seen[..ended.value]) != 0)
        case RollingBack(k) => k < |s.attempts| <= s.n && Cm.FirstFailure(s.attempts, |s.attempts| - 1)
        case _ => |s.attempts| == s.n && Cm.FirstFailure(s.attempts, s.n))
  }

  // ----- messages and the server's events

  /** Requests reach the server in order, at most one is on its way, and a client that goes on
      has been told about all the others. */
  ghost predicate InStep(s: State) {
    var i, ctr := |s.attempts|, s.server.ctr;
    && ctr <= s.n
    && (s.requests == {} || (s.requests == {ctr} && s.replies == {} && ctr < s.n))
    && (forall c | c in s.replies :: c + 1 == ctr)
    && (match s.client
        case Opening => ctr == i && s.requests == {} && s.replies == {}
        case Awaiting(seen, _) => AwaitingRight(s, i, ctr, seen)
        case RollingBack(_) => true
        case _ => ctr == s.n && s.requests == {} && s.replies == {})
  }

  ghost predicate AwaitingRight(s: State, i: nat, ctr: nat, seen: seq<Cm.CmEvent>) {
    if !Requested(seen) then ctr == i && s.requests == {} && s.replies == {}
    else if Cm.Established in seen then ctr == i + 1 && s.requests == {} && s.replies == {}
    else (ctr == i && s.requests == {i} && s.replies == {}) || (ctr == i + 1 && s.requests == {} && s.replies == {i})
  }

  /** Slot k belongs to client queue k. */
  ghost predicate Paired(s: State) {
    && !s.server.dead && s.server.ctr <= |s.server.slots| == s.n
    && forall k | 0 <= k < |s.server.slots| ::
         s.server.slots[k].conn == if k < s.server.ctr then Some(k) else None
  }

  /** The server and its main are where their events put them, and these come in the connection
      manager's order: one request per slot in use. */
  ghost predicate EventsRight(s: State) {
    && CmOrder(s.events) && s.server == Run(s.n, s.events) && s.main == MainAfter(s.n, s.events)
    && forall c: nat :: ConnectRequest(c) in s.events <==> c < s.server.ctr
  }

  /** How many connections the client knows to be established, as far as that still matters. */
  function Told(s: State): nat {
    match s.client
    case Opening => |s.attempts|
    case Awaiting(seen, _) => |s.attempts| + if Cm.Established in seen then 1 else 0
    case RollingBack(_) => 0
    case _ => s.n
  }

  /** Established connections: each confirmed to the server once or about to be. */
  ghost predicate Confirming(s: State) {
    && (forall c | c in s.confirms :: c < s.server.ctr && c !in s.replies && Established(c) !in s.events)
    && (forall c: nat | Established(c) in s.events :: c < s.server.ctr && c !in s.replies)
    && (forall c: nat | c < Told(s) :: c in s.confirms || Established(c) in s.events)
  }

  /** Connections are closed by the client's giving up and nothing else, each at most once: those
      that were established, from the failed one down to the last that the rollback has passed. */
  ghost predicate Closing(s: State) {
    match s.client
    case RollingBack(k) =>
      && (forall c: nat | c in s.closings :: Disconnected(c) !in s.events)
      && (forall c: nat :: c in s.closings || Disconnected(c) in s.events <==> GivenUp(s.attempts, k, c))
    case _ => s.closings == {} && forall c: nat :: Disconnected(c) !in s.events
  }

  predicate GivenUp(attempts: seq<Cm.Attempt>, k: nat, c: nat) {
    k <= c < |attempts| && Cm.Established in attempts[c].events
  }

  /** The region message exists once connection 0 is established, only on it, until received. */
  ghost predicate RegionRight(s: State) {
    && (s.client != Ready ==> s.regions == if Established(0) in s.events then {0} else {})
    && (s.client == Ready ==> s.regions == {} && Established(0) in s.events)
  }

  ghost predicate MessagesRight(s: State) {
    s.n > 0 && AttemptsRight(s) && InStep(s) && Confirming(s) && Closing(s) && RegionRight(s)
  }

  ghost predicate Inv(s: State) {
    MessagesRight(s) && Paired(s) && EventsRight(s)
  }

  // ----- every step keeps it

  lemma SlotOfPaired(s: State, c: nat)
    requires Paired(s) && c < s.server.ctr
    ensures SlotOf(s.server.slots, c) == c
  {
    var q := SlotOf(s.server.slots, c);
    if q < c { assert s.server.slots[q].conn == Some(q); }
    assert s.server.slots[c].conn == Some(c);
  }

  /** A slot that is connected had its establishment. */
  lemma ConnectedHadEvent(s: State, k: nat)
    requires Paired(s) && EventsRight(s) && k < s.n && s.server.slots[k].state == CONNECTED
    ensures k < s.server.ctr && Established(k) in s.events
  {
    EveryServerRun(s.n, s.events);
    assert StatesRight(s.server, s.events);
  }

  lemma AppendEvent(n: nat, es: seq<Event>, e: Event)
    requires CmOrder(es)
    requires e.Unknown? || (e !in es && (e.ConnectRequest? || ConnectRequest(e.conn) in es))
    ensures CmOrder(es + [e]) && Run(n, es + [e]) == OnEvent(Run(n, es), e)
  {
    var all := es + [e];
    assert all[..|es|] == es;
    forall i | 0 <= i < |all| && (all[i].Established? || all[i].Disconnected?)
      ensures ConnectRequest(all[i].conn) in all[..i]
    {
      if i < |es| { assert all[..i] == es[..i]; }
    }
  }

  /** The server's own part of handling an event that is due. */
  lemma EventServed(s: State, t: State, e: Event)
    requires EventsRight(s) && t == ServerHandles(s, e) && (e.Unknown? || e !in s.events)
    requires if e.ConnectRequest? then e.conn == s.server.ctr && t.server.ctr == e.conn + 1
             else t.server.ctr == s.server.ctr && (e.Unknown? || e.conn < s.server.ctr)
    ensures EventsRight(t)
  {
    AppendEvent(s.n, s.events, e);
    MainAppend(s.n, s.events, e);
    assert forall x :: x in t.events <==> x in s.events || x == e;
  }

  lemma RequestServed(s: State, c: nat)
    requires Paired(s) && EventsRight(s) && c == s.server.ctr < s.n
    ensures var t := ServerHandles(s, ConnectRequest(c));
      t.server.ctr == c + 1 && Paired(t) && t.regions == s.regions
  {
    var t := ServerHandles(s, ConnectRequest(c));
    if s.server.slots[c].state == CONNECTED { ConnectedHadEvent(s, c); }
    assert t.server.slots == s.server.slots[c := Slot(INIT, Some(c))];
  }

  lemma RequestMessages(s: State, t: State, c: nat)
    requires MessagesRight(s) && c in s.requests
    requires t == s.(server := t.server, main := t.main, events := s.events + [ConnectRequest(c)],
                     requests := s.requests - {c}, replies := s.replies + {c})
    requires t.server.ctr == s.server.ctr + 1
    ensures MessagesRight(t)
  {
    assert forall x :: x in t.events <==> x in s.events || x == ConnectRequest(c);
  }

  lemma DeliverRequestKeeps(s: State, c: nat)
    requires Inv(s) && Enabled(s, DeliverRequest(c))
    ensures Inv(Apply(s, DeliverRequest(c)))
  {
    RequestServed(s, c);
    var served, t := ServerHandles(s, ConnectRequest(c)), Apply(s, DeliverRequest(c));
    EventServed(s, served, ConnectRequest(c));
    ServerUntouched(served, t);
    RequestMessages(s, t, c);
  }

  lemma EstablishmentServed(s: State, c: nat)
    requires Paired(s) && EventsRight(s) && c < s.server.ctr && Established(c) !in s.events
    ensures var t := ServerHandles(s, Established(c));
      && t.server.ctr == s.server.ctr && Paired(t)
      && t.regions == if c == 0 then s.regions + {0} else s.regions
  {
    var t := ServerHandles(s, Established(c));
    SlotOfPaired(s, c);
    if s.server.slots[c].state == CONNECTED { ConnectedHadEvent(s, c); }
    assert t.server.slots == s.server.slots[c := Slot(CONNECTED, Some(c))];
  }

  lemma EstablishmentMessages(s: State, t: State, c: nat)
    requires MessagesRight(s) && c in s.confirms
    requires t == s.(server := t.server, main := t.main, events := s.events + [Established(c)], confirms := s.confirms - {c},
                     regions := if c == 0 then s.regions + {0} else s.regions)
    requires t.server.ctr == s.server.ctr
    ensures MessagesRight(t)
  {
    assert forall x :: x in t.events <==> x in s.events || x == Established(c);
    EstablishmentConfirms(s, t, c);
  }

  lemma EstablishmentConfirms(s: State, t: State, c: nat)
    requires Confirming(s) && c in s.confirms && t.confirms == s.confirms - {c}
    requires t.server.ctr == s.server.ctr && t.replies == s.replies && Told(t) == Told(s)
    requires forall x :: x in t.events <==> x in s.events || x == Established(c)
    ensures Confirming(t)
  {
  }

  lemma ServerEstablishedKeeps(s: State, c: nat)
    requires Inv(s) && Enabled(s, ServerEstablished(c))
    ensures Inv(Apply(s, ServerEstablished(c)))
  {
    EstablishmentServed(s, c);
    var served, t := ServerHandles(s, Established(c)), Apply(s, ServerEstablished(c));
    EventServed(s, served, Established(c));
    ServerUntouched(served, t);
    EstablishmentMessages(s, t, c);
  }

  lemma DisconnectServed(s: State, c: nat)
    requires Paired(s) && c < s.server.ctr
    ensures var t := ServerHandles(s, Disconnected(c));
      t.server.ctr == s.server.ctr && Paired(t) && t.regions == s.regions
  {
    var t := ServerHandles(s, Disconnected(c));
    SlotOfPaired(s, c);
    assert t.server.slots == s.server.slots[c := Slot(INIT, Some(c))];
  }

  lemma DisconnectMessages(s: State, t: State, c: nat)
    requires MessagesRight(s) && c in s.closings
    requires t == s.(server := t.server, main := t.main, events := s.events + [Disconnected(c)], closings := s.closings - {c})
    requires t.server.ctr == s.server.ctr
    ensures MessagesRight(t)
  {
    assert forall x :: x in t.events <==> x in s.events || x == Disconnected(c);
    DisconnectCloses(s, t, c);
  }

  lemma DisconnectCloses(s: State, t: State, c: nat)
    requires Closing(s) && c in s.closings && t.closings == s.closings - {c}
    requires t.client == s.client && t.attempts == s.attempts
    requires forall x :: x in t.events <==> x in s.events || x == Disconnected(c)
    ensures Closing(t)
  {
  }

  lemma DeliverDisconnectKeeps(s: State, c: nat)
    requires Inv(s) && Enabled(s, DeliverDisconnect(c))
    ensures Inv(Apply(s, DeliverDisconnect(c)))
  {
    DisconnectServed(s, c);
    var served, t := ServerHandles(s, Disconnected(c)), Apply(s, DeliverDisconnect(c));
    EventServed(s, served, Disconnected(c));
    ServerUntouched(served, t);
    DisconnectMessages(s, t, c);
  }

  lemma UnknownKeeps(s: State)
    requires Inv(s)
    ensures Inv(ServerHandles(s, Unknown))
  {
    var t := ServerHandles(s, Unknown);
    EventServed(s, t, Unknown);
    UnknownMessages(s, t);
  }

  lemma UnknownMessages(s: State, t: State)
    requires MessagesRight(s) && t.server.ctr == s.server.ctr
    requires t == s.(server := t.server, main := t.main, events := s.events + [Unknown])
    ensures MessagesRight(t)
  {
    assert forall x :: x in t.events <==> x in s.events || x == Unknown;
  }

  lemma ClientEventMessages(s: State, e: Cm.CmEvent)
    requires MessagesRight(s) && Enabled(s, ClientEvent(e))
    ensures MessagesRight(Apply(s, ClientEvent(e)))
  {
    var t, seen, ended := Apply(s, ClientEvent(e)), s.client.seen, s.client.ended;
    StageFacts(seen);
    assert (seen + [e])[..|seen|] == seen;
    assert ended.Some? ==> (seen + [e])[..ended.value] == seen[..ended.value];
    SeenGrows(seen, e);
  }

  lemma SeenGrows(seen: seq<Cm.CmEvent>, e: Cm.CmEvent)
    ensures Requested(seen + [e]) <==> Requested(seen) || e == Cm.RouteResolved(0)
    ensures Cm.Established in seen + [e] <==> Cm.Established in seen || e == Cm.Established
  {
  }

  /** A queue that is open sees no further request or establishment. */
  lemma LateEventSilent(s: State, q: nat, e: Cm.CmEvent)
    requires AttemptsRight(s) && Enabled(s, LateEvent(q, e))
    ensures e != Cm.RouteResolved(0) && e != Cm.Established
  {
    var a := s.attempts[q];
    StageFacts(a.events);
    Cm.OpensIffEstablished(a);
  }

  lemma LateEventAttempts(s: State, q: nat, e: Cm.CmEvent)
    requires AttemptsRight(s) && Enabled(s, LateEvent(q, e))
    ensures AttemptsRight(Apply(s, LateEvent(q, e)))
  {
    var t := Apply(s, LateEvent(q, e));
    var a, b := s.attempts[q], t.attempts[q];
    assert b.events[..|a.events|] == a.events && b.events[..a.seen] == a.events[..a.seen];
    assert Cm.Outcome(b) == Cm.Outcome(a);
    assert forall k | 0 <= k < |s.attempts| && k != q :: t.attempts[k] == s.attempts[k];
  }

  lemma EndWaitMessages(s: State)
    requires MessagesRight(s) && Enabled(s, EndWait)
    ensures MessagesRight(Apply(s, EndWait))
  {
    var t, seen := Apply(s, EndWait), s.client.seen;
    assert seen[..|seen|] == seen;
    if Cm.CmErrorRun(seen) == 0 { Cm.ZeroMeansEstablished(seen); }
    StageFacts(seen);
    assert forall k | 0 <= k < |s.attempts| :: t.attempts[k] == s.attempts[k];
  }

  lemma DestroyIdMessages(s: State)
    requires MessagesRight(s) && Enabled(s, DestroyFailedId)
    ensures MessagesRight(Apply(s, DestroyFailedId))
  {
    var t := Apply(s, DestroyFailedId);
    assert forall k | 0 <= k < |s.attempts| :: t.attempts[k] == s.attempts[k];
  }

  lemma StopQueueMessages(s: State)
    requires MessagesRight(s) && Enabled(s, StopQueue)
    ensures MessagesRight(Apply(s, StopQueue))
  {
    Cm.OpensIffEstablished(s.attempts[s.client.k - 1]);
  }

  lemma ClientMessages(s: State, a: Action)
    requires MessagesRight(s) && Enabled(s, a)
    requires a.StartQueue? || a.FailToStart? || a.PostReceive? || a.DeliverRegion?
    ensures MessagesRight(Apply(s, a))
  {
    var t := Apply(s, a);
    assert forall k | 0 <= k < |s.attempts| :: t.attempts[k] == s.attempts[k];
  }

  /** Steps of the client and the network leave the server alone. */
  lemma ServerUntouched(s: State, t: State)
    requires Paired(s) && EventsRight(s) && t.n == s.n && t.server == s.server && t.main == s.main && t.events == s.events
    ensures Paired(t) && EventsRight(t)
  {
  }

  predicate ByServer(a: Action) {
    a.DeliverRequest? || a.ServerEstablished? || a.DeliverDisconnect? || a.ServerUnknown?
  }

  lemma LateEventMessages(s: State, q: nat, e: Cm.CmEvent)
    requires MessagesRight(s) && Enabled(s, LateEvent(q, e))
    ensures MessagesRight(Apply(s, LateEvent(q, e)))
  {
    LateEventAttempts(s, q, e);
  }

  lemma ClientStepMessages(s: State, a: Action)
    requires MessagesRight(s) && Enabled(s, a) && !ByServer(a)
    ensures MessagesRight(Apply(s, a))
  {
    match a
    case ClientEvent(e) => ClientEventMessages(s, e);
    case LateEvent(q, e) => LateEventMessages(s, q, e);
    case EndWait => EndWaitMessages(s);
    case StopQueue => StopQueueMessages(s);
    case DestroyFailedId => DestroyIdMessages(s);
    case _ => ClientMessages(s, a);
  }

  lemma ClientStepKeeps(s: State, a: Action)
    requires Inv(s) && Enabled(s, a) && !ByServer(a)
    ensures Inv(Apply(s, a))
  {
    ClientStepMessages(s, a);
    ServerUntouched(s, Apply(s, a));
  }

  lemma ServerStepKeeps(s: State, a: Action)
    requires Inv(s) && Enabled(s, a) && ByServer(a)
    ensures Inv(Apply(s, a))
  {
    match a
    case DeliverRequest(c) => DeliverRequestKeeps(s, c);
    case ServerEstablished(c) => ServerEstablishedKeeps(s, c);
    case DeliverDisconnect(c) => DeliverDisconnectKeeps(s, c);
    case ServerUnknown => UnknownKeeps(s);
  }

  lemma StepKeepsInv(s: State, a: Action)
    requires Inv(s) && Enabled(s, a)
    ensures Inv(Apply(s, a))
  {
    if ByServer(a) { ServerStepKeeps(s, a); } else { ClientStepKeeps(s, a); }
  }

  ghost function Exec(s0: State, acts: seq<Action>): Option<State> {
    if acts == [] then Some(s0)
    else
      var before := Exec(s0, acts[..|acts| - 1]);
      var a := acts[|acts| - 1];
      if before.Some? && Enabled(before.value, a) then Some(Apply(before.value, a)) else None
  }

  lemma {:induction false} EveryRunInv(s0: State, acts: seq<Action>)
    requires Init(s0) && Exec(s0, acts).Some?
    ensures Inv(Exec(s0, acts).value)
  {
    if acts != [] {
      EveryRunInv(s0, acts[..|acts| - 1]);
      StepKeepsInv(Exec(s0, acts[..|acts| - 1]).value, acts[|acts| - 1]);
    }
  }

  // ----- what follows

  /** In every run of client and server composed, with failures, rollback, late events and events
      unknown to the server, server slot k is paired with client queue k, no handler of the server
      dies, and the region message travels only on the connection of client queue 0, where the
      client posts its receive. */
  lemma EveryRunPaired(s0: State, acts: seq<Action>)
    requires Init(s0) && Exec(s0, acts).Some?
    ensures var s := Exec(s0, acts).value; Paired(s) && s.regions <= {0}
  {
    EveryRunInv(s0, acts);
  }

  /** The region message can be received at once, or as soon as the server has been told that
      connection 0 is established. */
  predicate RegionAtHand(s: State) {
    Enabled(s, DeliverRegion(0)) ||
    (Enabled(s, ServerEstablished(0)) && Enabled(Apply(s, ServerEstablished(0)), DeliverRegion(0)))
  }

  /** The region message is at hand for a client that waits for it, exactly unless the server's
      main was over before it learned of connection 0; that takes unknown events. */
  lemma WaitingClientIsServed(s0: State, acts: seq<Action>)
    requires Init(s0) && Exec(s0, acts).Some? && Exec(s0, acts).value.client == Receiving
    ensures var s := Exec(s0, acts).value;
      && (RegionAtHand(s) <==> Running(s.main) || Established(0) in s.events)
      && (Unknown !in s.events ==> RegionAtHand(s))
  {
    EveryRunInv(s0, acts);
    var s := Exec(s0, acts).value;
    RegionComes(s);
    if Unknown !in s.events { UnbrokenRuns(s); }
  }

  lemma RegionComes(s: State)
    requires Inv(s) && s.client == Receiving
    ensures RegionAtHand(s) <==> Running(s.main) || Established(0) in s.events
  {
    if Established(0) !in s.events && Running(s.main) {
      assert 0 in s.confirms;
      EstablishmentGivesRegion(s);
    }
  }

  lemma EstablishmentGivesRegion(s: State)
    requires Paired(s) && EventsRight(s) && 0 < s.server.ctr && Established(0) !in s.events
    requires Enabled(s, ServerEstablished(0)) && s.client == Receiving
    ensures Enabled(Apply(s, ServerEstablished(0)), DeliverRegion(0))
  {
    EstablishmentServed(s, 0);
    assert Apply(s, ServerEstablished(0)).regions == ServerHandles(s, Established(0)).regions;
  }

  /** Without unknown events only a rollback can end the server's main. */
  lemma UnbrokenRuns(s: State)
    requires Inv(s) && Unknown !in s.events && !s.client.RollingBack?
    ensures Running(s.main)
  {
    DiesIffTooManyRequests(s.n, s.events);
    MainEndsIff(s.n, s.events);
    forall k | 0 <= k < |s.events| ensures !Breaks(s.events[k]) {
      assert s.events[k] in s.events;
    }
  }

  /** The composed client is the one of CmSetup: its attempts are in protocol order, all but the
      last opened, and it gives up exactly at the first that did not. Every queue its rollback
      has passed is closed: the server has handled the disconnect or will be told. */
  lemma ClientFollowsSetup(s0: State, acts: seq<Action>)
    requires Init(s0) && Exec(s0, acts).Some?
    ensures var s := Exec(s0, acts).value;
      && Cm.AllWellFormed(s.attempts) && (forall k | 0 <= k < |s.attempts| :: Cm.InOrder(s.attempts[k].events))
      && (s.client.RollingBack? <==> s.attempts != [] && Cm.FirstFailure(s.attempts, |s.attempts| - 1))
      && (!s.client.RollingBack? ==> Cm.FirstFailure(s.attempts, |s.attempts|) && s.closings == {})
      && (s.client.RollingBack? ==> forall c: nat ::
            c in s.closings || Disconnected(c) in s.events <==> GivenUp(s.attempts, s.client.k, c))
  {
    EveryRunInv(s0, acts);
  }

  /** What the server sees in a composed run is in the connection manager's order, so everything
      shown about single server runs applies to it; and its main dies exactly if unknown events
      get it through both loops before the first request. */
  lemma ServerDiesIff(s0: State, acts: seq<Action>)
    requires Init(s0) && Exec(s0, acts).Some?
    ensures var s := Exec(s0, acts).value;
      && CmOrder(s.events) && s.server == Run(s.n, s.events) && s.main == MainAfter(s.n, s.events)
      && (s.main == Died <==> OnlyUnknown(s.n, s.events))
  {
    EveryRunInv(s0, acts);
    var s := Exec(s0, acts).value;
    DiesIffTooManyRequests(s.n, s.events);
    DiesIffOnlyUnknown(s.n, s.events);
  }
}
