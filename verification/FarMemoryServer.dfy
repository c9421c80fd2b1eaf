/** The far-memory server: connection slots handed out in order of arrival, one buffer set up
    on the first request, its address sent on slot 0, and the two event loops of main
    (code/farmemserver/rmserver.c). */
module FarMemoryServer {
  import opened Wrappers

  datatype SlotState = INIT | CONNECTED

  datatype Slot = Slot(state: SlotState, conn: Option<nat>)

  datatype Event = ConnectRequest(conn: nat) | Established(conn: nat) | Disconnected(conn: nat) | Unknown

  /** What the server does to the outside: registers its buffer, creates a queue pair for a
      slot, sends the memory region on a slot, releases what belongs to a slot. */
  datatype Effect = SetupDevice | CreateQp(slot: nat) | SendRegion(slot: nat) | DestroyQp(slot: nat) | DestroyId(slot: nat)

  /** dead means the process has left through die() or run past the slot array. */
  datatype Server = Server(slots: seq<Slot>, ctr: nat, device: bool, effects: seq<Effect>, dead: bool)

  function Fresh(n: nat): Server {
    Server(seq(n, i => Slot(INIT, None)), 0, false, [], false)
  }

  /** The slot that a connection's context points to, |slots| if none does. */
  function SlotOf(slots: seq<Slot>, conn: nat): (q: nat)
    ensures q <= |slots|
    ensures q < |slots| ==> slots[q].conn == Some(conn)
    ensures forall i | 0 <= i < q :: slots[i].conn != Some(conn)
  {
    if slots == [] then 0
    else if slots[0].conn == Some(conn) then 0
    else SlotOf(slots[1..], conn) + 1
  }

  function Dead(s: Server): Server {
    s.(dead := true)
  }

  /** on_connect_request: the next slot, then the device if there is none yet, then the QP. */
  function OnConnectRequest(s: Server, conn: nat): Server {
    if s.ctr >= |s.slots| || s.slots[s.ctr].state != INIT then Dead(s.(ctr := s.ctr + 1))
    else s.(slots := s.slots[s.ctr := Slot(INIT, Some(conn))],
            ctr := s.ctr + 1,
            device := true,
            effects := s.effects + (if s.device then [] else [SetupDevice]) + [CreateQp(s.ctr)])
  }

  /** on_connection: slot 0 also gets the memory region. */
  function OnConnection(s: Server, q: nat): Server {
    if q >= |s.slots| || s.slots[q].state != INIT then Dead(s)
    else s.(slots := s.slots[q := s.slots[q].(state := CONNECTED)],
            effects := s.effects + if q == 0 then [SendRegion(0)] else [])
  }

  function OnDisconnect(s: Server, q: nat): Server {
    if q >= |s.slots| then Dead(s)
    else if s.slots[q].state == CONNECTED then
      s.(slots := s.slots[q := s.slots[q].(state := INIT)], effects := s.effects + [DestroyQp(q), DestroyId(q)])
    else s
  }

  /** on_event; events that reach a dead process change nothing. */
  function OnEvent(s: Server, e: Event): Server {
    if s.dead then s
    else match e
      case ConnectRequest(conn) => OnConnectRequest(s, conn)
      case Established(conn) => OnConnection(s, SlotOf(s.slots, conn))
      case Disconnected(conn) => OnDisconnect(s, SlotOf(s.slots, conn))
      case Unknown => s
  }

  /** on_event's return value: nonzero breaks out of the event loop it was called from. */
  predicate Breaks(e: Event) {
    e.Disconnected? || e.Unknown?
  }

  function Run(n: nat, es: seq<Event>): (s: Server)
    ensures |s.slots| == n
  {
    if es == [] then Fresh(n) else OnEvent(Run(n, es[..|es| - 1]), es[|es| - 1])
  }

  // ----- what the connection manager promises

  /** No event comes twice and a connection is established or closed only after its request. */
  predicate CmOrder(es: seq<Event>) {
    && (forall i, j | 0 <= i < j < |es| && !es[i].Unknown? :: es[i] != es[j])
    && (forall i | 0 <= i < |es| && (es[i].Established? || es[i].Disconnected?) ::
          ConnectRequest(es[i].conn) in es[..i])
  }

  // ----- what every run keeps

  /** Slots below queue_ctr belong to requests that arrived, each to one, the others to nobody. */
  ghost predicate ConnsAssigned(s: Server, es: seq<Event>) {
    && s.ctr <= |s.slots|
    && (forall i | 0 <= i < |s.slots| :: s.slots[i].conn.Some? <==> i < s.ctr)
    && (forall i | 0 <= i < s.ctr :: ConnectRequest(s.slots[i].conn.value) in es)
    && (forall i, j | 0 <= i < j < s.ctr :: s.slots[i].conn != s.slots[j].conn)
    && (forall c: nat | ConnectRequest(c) in es :: HasSlot(s, c))
  }

  ghost predicate HasSlot(s: Server, c: nat)
    requires s.ctr <= |s.slots|
  {
    exists i :: 0 <= i < s.ctr && s.slots[i].conn == Some(c)
  }

  /** A connected slot has an owner whose connection was established. */
  ghost predicate StatesRight(s: Server, es: seq<Event>) {
    forall i | 0 <= i < |s.slots| && s.slots[i].state == CONNECTED ::
      s.slots[i].conn.Some? && Established(s.slots[i].conn.value) in es
  }

  ghost predicate SlotsAssigned(s: Server, es: seq<Event>) {
    ConnsAssigned(s, es) && StatesRight(s, es)
  }

  /** Everything the server did had its reason. */
  ghost predicate Justified(s: Server, e: Effect, es: seq<Event>) {
    match e
    case SetupDevice => s.device
    case CreateQp(q) => q < s.ctr
    case SendRegion(q) => q == 0 && WasEstablished(s, 0, es)
    case DestroyQp(q) => WasDisconnected(s, q, es)
    case DestroyId(q) => WasDisconnected(s, q, es)
  }

  ghost predicate WasEstablished(s: Server, q: nat, es: seq<Event>) {
    q < |s.slots| && s.slots[q].conn.Some? && Established(s.slots[q].conn.value) in es
  }

  ghost predicate WasDisconnected(s: Server, q: nat, es: seq<Event>) {
    q < |s.slots| && s.slots[q].conn.Some? && Disconnected(s.slots[q].conn.value) in es
  }

  /** Of any run, even one that ended in death: the device and buffer were set up first and once,
      the region was sent at most once, on slot 0, after its connection was established; each QP
      was created at most once and destroyed at most once, after its disconnect. */
  ghost predicate EffectsRight(s: Server, es: seq<Event>) {
    && (s.device <==> s.effects != [])
    && (s.effects != [] ==> s.effects[0] == SetupDevice)
    && (forall i, j | 0 <= i < j < |s.effects| :: s.effects[i] != s.effects[j])
    && (forall k | 0 <= k < |s.effects| :: Justified(s, s.effects[k], es))
  }

  /** While the server lives, nothing it owes is missing. */
  ghost predicate NothingOwed(s: Server, es: seq<Event>) {
    && (s.device <==> s.ctr > 0)
    && (forall q: nat | q < s.ctr :: CreateQp(q) in s.effects)
    && (WasEstablished(s, 0, es) ==> SendRegion(0) in s.effects)
  }

  ghost predicate ServerInv(s: Server, es: seq<Event>) {
    && EffectsRight(s, es)
    && (!s.dead ==> SlotsAssigned(s, es) && NothingOwed(s, es))
  }

  lemma CmOrderPrefix(es: seq<Event>)
    requires CmOrder(es) && es != []
    ensures CmOrder(es[..|es| - 1])
  {
    var before := es[..|es| - 1];
    forall i | 0 <= i < |before| && (before[i].Established? || before[i].Disconnected?)
      ensures ConnectRequest(before[i].conn) in before[..i]
    {
      assert before[..i] == es[..i];
    }
  }

  /** A connection that was requested has exactly one slot. */
  lemma SlotFound(s: Server, es: seq<Event>, c: nat)
    requires SlotsAssigned(s, es) && ConnectRequest(c) in es
    ensures SlotOf(s.slots, c) < s.ctr
  {
    assert HasSlot(s, c);
    var i :| 0 <= i < s.ctr && s.slots[i].conn == Some(c);
    assert s.slots[SlotOf(s.slots, c)].conn == Some(c) || SlotOf(s.slots, c) > i;
  }

  /** Later events and later states take no reason away. */
  lemma JustifiedLater(s: Server, t: Server, es: seq<Event>, e: Event)
    requires EffectsRight(s, es) && s.ctr <= t.ctr && |t.slots| == |s.slots| && (s.device ==> t.device)
    requires forall q | 0 <= q < |s.slots| && s.slots[q].conn.Some? :: t.slots[q].conn == s.slots[q].conn
    ensures forall k | 0 <= k < |s.effects| :: Justified(t, s.effects[k], es + [e])
  {
    forall k | 0 <= k < |s.effects| ensures Justified(t, s.effects[k], es + [e]) {
      assert Justified(s, s.effects[k], es);
    }
  }

  /** Effects that were not there before and have a reason keep the record right. */
  lemma EffectsExtend(s: Server, t: Server, es: seq<Event>, e: Event, added: seq<Effect>)
    requires EffectsRight(s, es) && t.effects == s.effects + added && t.device == (s.device || added != [])
    requires s.ctr <= t.ctr && |t.slots| == |s.slots|
    requires forall q | 0 <= q < |s.slots| && s.slots[q].conn.Some? :: t.slots[q].conn == s.slots[q].conn
    requires !s.device && added != [] ==> added[0] == SetupDevice
    requires forall i, j | 0 <= i < j < |added| :: added[i] != added[j]
    requires forall i | 0 <= i < |added| :: Justified(t, added[i], es + [e]) && !Justified(s, added[i], es)
    ensures EffectsRight(t, es + [e])
  {
    JustifiedLater(s, t, es, e);
    forall i, j | 0 <= i < |s.effects| && 0 <= j < |added| ensures s.effects[i] != added[j] {
      assert Justified(s, s.effects[i], es) && !Justified(s, added[j], es);
    }
  }

  lemma DeathKeepsInv(s: Server, es: seq<Event>, e: Event)
    requires ServerInv(s, es) && OnEvent(s, e).dead
    ensures ServerInv(OnEvent(s, e), es + [e])
  {
    EffectsExtend(s, OnEvent(s, e), es, e, []);
  }

  lemma RequestKeepsSlots(s: Server, es: seq<Event>, c: nat)
    requires !s.dead && SlotsAssigned(s, es) && ConnectRequest(c) !in es
    requires !OnEvent(s, ConnectRequest(c)).dead
    ensures SlotsAssigned(OnEvent(s, ConnectRequest(c)), es + [ConnectRequest(c)])
  {
    var e := ConnectRequest(c);
    var t, all := OnEvent(s, e), es + [e];
    assert t.slots[s.ctr].conn == Some(c);
    assert forall i | 0 <= i < s.ctr :: t.slots[i] == s.slots[i];
    forall d: nat | ConnectRequest(d) in all ensures HasSlot(t, d) {
      if d != c {
        assert HasSlot(s, d);
        var i :| 0 <= i < s.ctr && s.slots[i].conn == Some(d);
        assert t.slots[i].conn == Some(d);
      }
    }
    forall x | x in es ensures x in all { }
  }

  lemma RequestKeepsInv(s: Server, es: seq<Event>, c: nat)
    requires !s.dead && ServerInv(s, es) && ConnectRequest(c) !in es && Established(c) !in es
    ensures ServerInv(OnEvent(s, ConnectRequest(c)), es + [ConnectRequest(c)])
  {
    var e := ConnectRequest(c);
    var t, all := OnEvent(s, e), es + [e];
    if t.dead {
      DeathKeepsInv(s, es, e);
    } else {
      RequestKeepsSlots(s, es, c);
      var added := (if s.device then [] else [SetupDevice]) + [CreateQp(s.ctr)];
      assert t.effects == s.effects + added;
      EffectsExtend(s, t, es, e, added);
      assert t.effects[|t.effects| - 1] == CreateQp(s.ctr);
      RequestOwes(s, t, es, c);
    }
  }

  lemma RequestOwes(s: Server, t: Server, es: seq<Event>, c: nat)
    requires !s.dead && SlotsAssigned(s, es) && NothingOwed(s, es) && Established(c) !in es
    requires t == OnEvent(s, ConnectRequest(c)) && !t.dead && t.effects[|t.effects| - 1] == CreateQp(s.ctr)
    ensures NothingOwed(t, es + [ConnectRequest(c)])
  {
    assert forall x | x in s.effects :: x in t.effects;
    if s.ctr > 0 { assert t.slots[0] == s.slots[0]; }
  }

  /** Events other than requests leave the owners of the slots alone. */
  lemma SameConns(s: Server, t: Server, es: seq<Event>, e: Event)
    requires ConnsAssigned(s, es) && !e.ConnectRequest? && t.ctr == s.ctr && |t.slots| == |s.slots|
    requires forall i | 0 <= i < |s.slots| :: t.slots[i].conn == s.slots[i].conn
    ensures ConnsAssigned(t, es + [e])
  {
    forall c: nat | ConnectRequest(c) in es + [e] ensures HasSlot(t, c) {
      assert HasSlot(s, c);
      var i :| 0 <= i < s.ctr && s.slots[i].conn == Some(c);
      assert t.slots[i].conn == Some(c);
    }
  }

  /** The owner of slot q is c exactly if q is the slot of c. */
  lemma OwnerIsUnique(s: Server, es: seq<Event>, c: nat, q: nat)
    requires SlotsAssigned(s, es) && ConnectRequest(c) in es && q < |s.slots|
    ensures SlotOf(s.slots, c) < s.ctr && (s.slots[q].conn == Some(c) <==> q == SlotOf(s.slots, c))
  {
    SlotFound(s, es, c);
  }

  lemma EstablishKeepsInv(s: Server, es: seq<Event>, c: nat)
    requires !s.dead && ServerInv(s, es) && ConnectRequest(c) in es && Established(c) !in es
    ensures ServerInv(OnEvent(s, Established(c)), es + [Established(c)])
  {
    var e := Established(c);
    var t, q := OnEvent(s, e), SlotOf(s.slots, c);
    OwnerIsUnique(s, es, c, 0);
    if t.dead {
      DeathKeepsInv(s, es, e);
    } else {
      SameConns(s, t, es, e);
      EffectsExtend(s, t, es, e, if q == 0 then [SendRegion(0)] else []);
      assert q == 0 ==> t.effects[|s.effects|] == SendRegion(0);
      StillNothingOwed(s, t, es, e);
    }
  }

  lemma StillNothingOwed(s: Server, t: Server, es: seq<Event>, e: Event)
    requires NothingOwed(s, es) && |s.effects| <= |t.effects| && s.effects == t.effects[..|s.effects|]
    requires t.ctr == s.ctr && t.device == s.device && |t.slots| == |s.slots|
    requires forall q | 0 <= q < |s.slots| :: t.slots[q].conn == s.slots[q].conn
    requires |s.slots| > 0 && s.slots[0].conn.Some? && e == Established(s.slots[0].conn.value) ==> SendRegion(0) in t.effects
    ensures NothingOwed(t, es + [e])
  {
    forall x | x in s.effects ensures x in t.effects { assert x in t.effects[..|s.effects|]; }
  }

  lemma DisconnectKeepsSlots(s: Server, es: seq<Event>, c: nat)
    requires !s.dead && SlotsAssigned(s, es) && ConnectRequest(c) in es
    ensures SlotOf(s.slots, c) < s.ctr && !OnEvent(s, Disconnected(c)).dead
    ensures SlotsAssigned(OnEvent(s, Disconnected(c)), es + [Disconnected(c)])
  {
    SlotFound(s, es, c);
    SameConns(s, OnEvent(s, Disconnected(c)), es, Disconnected(c));
  }

  lemma DisconnectKeepsEffects(s: Server, es: seq<Event>, c: nat)
    requires !s.dead && EffectsRight(s, es) && Disconnected(c) !in es
    requires SlotOf(s.slots, c) < |s.slots| && s.device
    ensures EffectsRight(OnEvent(s, Disconnected(c)), es + [Disconnected(c)])
  {
    var e := Disconnected(c);
    var t, q := OnEvent(s, e), SlotOf(s.slots, c);
    var added := if s.slots[q].state == CONNECTED then [DestroyQp(q), DestroyId(q)] else [];
    assert t.effects == s.effects + added;
    EffectsExtend(s, t, es, e, added);
  }

  lemma DisconnectKeepsInv(s: Server, es: seq<Event>, c: nat)
    requires !s.dead && ServerInv(s, es) && ConnectRequest(c) in es && Disconnected(c) !in es
    ensures ServerInv(OnEvent(s, Disconnected(c)), es + [Disconnected(c)])
  {
    DisconnectKeepsSlots(s, es, c);
    DisconnectKeepsEffects(s, es, c);
    StillNothingOwed(s, OnEvent(s, Disconnected(c)), es, Disconnected(c));
  }

  lemma UnknownKeepsInv(s: Server, es: seq<Event>)
    requires !s.dead && ServerInv(s, es)
    ensures ServerInv(s, es + [Unknown])
  {
    SameConns(s, s, es, Unknown);
    EffectsExtend(s, s, es, Unknown, []);
  }

  /** Over every sequence of events the connection manager can deliver, those that end in death
      included: the device and the buffer are set up at most once and before any queue pair; the
      memory region goes out at most once, on slot 0, when that slot's connection is established;
      slots belong to distinct connections, in order of arrival. */
  lemma {:induction false} EveryServerRun(n: nat, es: seq<Event>)
    requires CmOrder(es)
    ensures ServerInv(Run(n, es), es)
  {
    if es != [] {
      var before, e := es[..|es| - 1], es[|es| - 1];
      CmOrderPrefix(es);
      EveryServerRun(n, before);
      assert es == before + [e];
      var s := Run(n, before);
      if s.dead {
        DeathKeepsInv(s, before, e);
      } else {
        match e
        case ConnectRequest(c) => RequestKeepsInv(s, before, c);
        case Established(c) => EstablishKeepsInv(s, before, c);
        case Disconnected(c) => DisconnectKeepsInv(s, before, c);
        case Unknown => UnknownKeepsInv(s, before);
      }
    }
  }

  function Requests(es: seq<Event>): nat {
    if es == [] then 0
    else Requests(es[..|es| - 1]) + if es[|es| - 1].ConnectRequest? then 1 else 0
  }

  /** A handler reaches die() or runs past the slots exactly if more connections are requested
      than there are slots: queue_ctr never goes back. */
  lemma {:induction false} DiesIffTooManyRequests(n: nat, es: seq<Event>)
    requires CmOrder(es)
    ensures Run(n, es).dead <==> Requests(es) > n
    ensures !Run(n, es).dead ==> Run(n, es).ctr == Requests(es)
  {
    if es != [] {
      var before, e := es[..|es| - 1], es[|es| - 1];
      CmOrderPrefix(es);
      DiesIffTooManyRequests(n, before);
      EveryServerRun(n, before);
      var s := Run(n, before);
      if !s.dead && (e.Established? || e.Disconnected?) {
        SlotFound(s, before, e.conn);
        assert es[..|before|] == before;
      }
    }
  }

  // ----- what becomes of each slot, told by the events

  /** The connection was established and later disconnected. */
  ghost predicate Closed(es: seq<Event>, c: nat) {
    exists i, j :: 0 <= i < j < |es| && es[i] == Established(c) && es[j] == Disconnected(c)
  }

  lemma ClosedNext(es: seq<Event>, e: Event, c: nat)
    ensures Closed(es + [e], c) <==> Closed(es, c) || (e == Disconnected(c) && Established(c) in es)
  {
    var all := es + [e];
    if Closed(es, c) {
      var i, j :| 0 <= i < j < |es| && es[i] == Established(c) && es[j] == Disconnected(c);
      assert all[i] == Established(c) && all[j] == Disconnected(c);
    }
    if e == Disconnected(c) && Established(c) in es {
      var i :| 0 <= i < |es| && es[i] == Established(c);
      assert all[i] == Established(c) && all[|es|] == Disconnected(c);
    }
    if Closed(all, c) {
      var i, j :| 0 <= i < j < |all| && all[i] == Established(c) && all[j] == Disconnected(c);
      assert es[i] == Established(c);
      if j < |es| { assert es[j] == Disconnected(c); }
    }
  }

  /** Wherever both are, the first comes before the second. */
  ghost predicate Ordered(effects: seq<Effect>, x: Effect, y: Effect) {
    forall a, b | 0 <= a < |effects| && 0 <= b < |effects| && effects[a] == x && effects[b] == y :: a < b
  }

  lemma OrderedExtend(effects: seq<Effect>, added: seq<Effect>, x: Effect, y: Effect)
    requires Ordered(effects, x, y) && (x !in added || (y !in effects && Ordered(added, x, y)))
    ensures Ordered(effects + added, x, y)
  {
    var n, all := |effects|, effects + added;
    forall a, b | 0 <= a < |all| && 0 <= b < |all| && all[a] == x && all[b] == y ensures a < b {
      assert b < n ==> effects[b] == y;
      if a >= n {
        assert added[a - n] == x;
        if b >= n { assert added[b - n] == y; }
      } else if b < n {
        assert effects[a] == x;
      }
    }
  }

  /** Slot q, which belongs to connection c: it is CONNECTED from the establishment to the
      disconnect; the disconnect of an established connection, and nothing else, destroys the QP
      and then the id; the QP was created before. */
  ghost predicate SlotLaw(s: Server, es: seq<Event>, q: nat, c: nat)
    requires q < |s.slots|
  {
    && (s.slots[q].state == CONNECTED <==> Established(c) in es && !Closed(es, c))
    && (DestroyQp(q) in s.effects <==> Closed(es, c))
    && (DestroyId(q) in s.effects <==> Closed(es, c))
    && Ordered(s.effects, CreateQp(q), DestroyQp(q)) && Ordered(s.effects, DestroyQp(q), DestroyId(q))
  }

  ghost predicate SlotsLaw(s: Server, es: seq<Event>) {
    forall q | 0 <= q < |s.slots| && s.slots[q].conn.Some? :: SlotLaw(s, es, q, s.slots[q].conn.value)
  }

  /** An event that is not about slot q. */
  lemma LawKept(s: Server, t: Server, es: seq<Event>, e: Event, q: nat, c: nat, added: seq<Effect>)
    requires q < |s.slots| == |t.slots| && SlotLaw(s, es, q, c) && t.slots[q] == s.slots[q]
    requires t.effects == s.effects + added && e != Established(c) && e != Disconnected(c)
    requires CreateQp(q) !in added && DestroyQp(q) !in added && DestroyId(q) !in added
    ensures SlotLaw(t, es + [e], q, c)
  {
    ClosedNext(es, e, c);
    OrderedExtend(s.effects, added, CreateQp(q), DestroyQp(q));
    OrderedExtend(s.effects, added, DestroyQp(q), DestroyId(q));
  }

  /** The slot's own request. */
  lemma LawStarts(s: Server, t: Server, es: seq<Event>, c: nat, added: seq<Effect>)
    requires !s.dead && ServerInv(s, es) && s.ctr < |s.slots| == |t.slots|
    requires Established(c) !in es && Disconnected(c) !in es && t.slots[s.ctr] == Slot(INIT, Some(c))
    requires t.effects == s.effects + added && DestroyQp(s.ctr) !in added && DestroyId(s.ctr) !in added
    ensures SlotLaw(t, es + [ConnectRequest(c)], s.ctr, c)
  {
    var q := s.ctr;
    ClosedNext(es, ConnectRequest(c), c);
    forall k | 0 <= k < |s.effects| ensures s.effects[k] != DestroyQp(q) && s.effects[k] != DestroyId(q) {
      assert Justified(s, s.effects[k], es);
    }
    assert DestroyQp(q) !in s.effects && DestroyId(q) !in s.effects;
    assert DestroyQp(q) !in t.effects && DestroyId(q) !in t.effects;
  }

  lemma RequestKeepsLaw(s: Server, es: seq<Event>, c: nat)
    requires !s.dead && ServerInv(s, es) && SlotsLaw(s, es) && !OnEvent(s, ConnectRequest(c)).dead
    requires ConnectRequest(c) !in es && Established(c) !in es && Disconnected(c) !in es
    ensures SlotsLaw(OnEvent(s, ConnectRequest(c)), es + [ConnectRequest(c)])
  {
    var e := ConnectRequest(c);
    var t := OnEvent(s, e);
    var added := (if s.device then [] else [SetupDevice]) + [CreateQp(s.ctr)];
    assert t.effects == s.effects + added;
    forall q | 0 <= q < |t.slots| && t.slots[q].conn.Some? ensures SlotLaw(t, es + [e], q, t.slots[q].conn.value) {
      if q == s.ctr {
        LawStarts(s, t, es, c, added);
      } else {
        LawKept(s, t, es, e, q, s.slots[q].conn.value, added);
      }
    }
  }

  /** The slot's own establishment. */
  lemma LawEstablished(s: Server, t: Server, es: seq<Event>, q: nat, c: nat)
    requires q < |s.slots| == |t.slots| && SlotLaw(s, es, q, c) && Established(c) !in es
    requires t.slots[q].state == CONNECTED && t.effects == s.effects + if q == 0 then [SendRegion(0)] else []
    ensures SlotLaw(t, es + [Established(c)], q, c)
  {
    var added := if q == 0 then [SendRegion(0)] else [];
    ClosedNext(es, Established(c), c);
    OrderedExtend(s.effects, added, CreateQp(q), DestroyQp(q));
    OrderedExtend(s.effects, added, DestroyQp(q), DestroyId(q));
    assert !Closed(es, c);
  }

  lemma EstablishKeepsLaw(s: Server, es: seq<Event>, c: nat)
    requires !s.dead && ServerInv(s, es) && SlotsLaw(s, es) && !OnEvent(s, Established(c)).dead
    requires ConnectRequest(c) in es && Established(c) !in es
    ensures SlotsLaw(OnEvent(s, Established(c)), es + [Established(c)])
  {
    var e := Established(c);
    var t, own := OnEvent(s, e), SlotOf(s.slots, c);
    var added := if own == 0 then [SendRegion(0)] else [];
    forall q | 0 <= q < |t.slots| && t.slots[q].conn.Some? ensures SlotLaw(t, es + [e], q, t.slots[q].conn.value) {
      OwnerIsUnique(s, es, c, q);
      if q == own {
        LawEstablished(s, t, es, q, c);
      } else {
        LawKept(s, t, es, e, q, s.slots[q].conn.value, added);
      }
    }
  }

  /** The slot's own disconnect. */
  lemma LawDisconnected(s: Server, t: Server, es: seq<Event>, q: nat, c: nat)
    requires q < |s.slots| == |t.slots| && SlotLaw(s, es, q, c) && !Closed(es, c) && t.slots[q].state == INIT
    requires t.effects == s.effects + if s.slots[q].state == CONNECTED then [DestroyQp(q), DestroyId(q)] else []
    ensures SlotLaw(t, es + [Disconnected(c)], q, c)
  {
    var added := if s.slots[q].state == CONNECTED then [DestroyQp(q), DestroyId(q)] else [];
    ClosedNext(es, Disconnected(c), c);
    OrderedExtend(s.effects, added, CreateQp(q), DestroyQp(q));
    OrderedExtend(s.effects, added, DestroyQp(q), DestroyId(q));
    if s.slots[q].state == CONNECTED {
      assert t.effects[|s.effects|] == DestroyQp(q) && t.effects[|s.effects| + 1] == DestroyId(q);
    }
  }

  lemma DisconnectDoes(s: Server, c: nat)
    requires !s.dead && SlotOf(s.slots, c) < |s.slots|
    ensures var t, own := OnEvent(s, Disconnected(c)), SlotOf(s.slots, c);
      && |t.slots| == |s.slots| && t.slots[own] == s.slots[own].(state := INIT)
      && (forall q | 0 <= q < |s.slots| && q != own :: t.slots[q] == s.slots[q])
      && t.effects == s.effects + if s.slots[own].state == CONNECTED then [DestroyQp(own), DestroyId(own)] else []
  {
  }

  lemma DisconnectKeepsLaw(s: Server, es: seq<Event>, c: nat)
    requires !s.dead && ServerInv(s, es) && SlotsLaw(s, es) && ConnectRequest(c) in es && Disconnected(c) !in es
    ensures SlotsLaw(OnEvent(s, Disconnected(c)), es + [Disconnected(c)])
  {
    var own := SlotOf(s.slots, c);
    SlotFound(s, es, c);
    DisconnectDoes(s, c);
    forall q | 0 <= q < |s.slots| && s.slots[q].conn.Some?
      ensures if q == own then s.slots[q].conn == Some(c) else s.slots[q].conn != Some(c)
    {
      OwnerIsUnique(s, es, c, q);
    }
    assert !Closed(es, c);
    LawAround(s, OnEvent(s, Disconnected(c)), es, own, c);
  }

  lemma LawAround(s: Server, t: Server, es: seq<Event>, own: nat, c: nat)
    requires SlotsLaw(s, es) && own < |s.slots| == |t.slots| && !Closed(es, c)
    requires t.slots[own] == s.slots[own].(state := INIT) && s.slots[own].conn == Some(c)
    requires forall q | 0 <= q < |s.slots| && q != own :: t.slots[q] == s.slots[q] && s.slots[q].conn != Some(c)
    requires t.effects == s.effects + if s.slots[own].state == CONNECTED then [DestroyQp(own), DestroyId(own)] else []
    ensures SlotsLaw(t, es + [Disconnected(c)])
  {
    var e := Disconnected(c);
    var added := if s.slots[own].state == CONNECTED then [DestroyQp(own), DestroyId(own)] else [];
    forall q | 0 <= q < |t.slots| && t.slots[q].conn.Some? ensures SlotLaw(t, es + [e], q, t.slots[q].conn.value) {
      if q == own {
        LawDisconnected(s, t, es, q, c);
      } else {
        LawKept(s, t, es, e, q, s.slots[q].conn.value, added);
      }
    }
  }

  lemma UnknownKeepsLaw(s: Server, es: seq<Event>)
    requires SlotsLaw(s, es)
    ensures SlotsLaw(s, es + [Unknown])
  {
    forall q | 0 <= q < |s.slots| && s.slots[q].conn.Some? ensures SlotLaw(s, es + [Unknown], q, s.slots[q].conn.value) {
      LawKept(s, s, es, Unknown, q, s.slots[q].conn.value, []);
    }
  }

  /** The slots so far follow the events, and the one that request number k got is slot k. */
  ghost predicate ArrivalLaw(s: Server, es: seq<Event>) {
    forall p | 0 <= p < |es| && es[p].ConnectRequest? ::
      var k := Requests(es[..p]); k < |s.slots| && s.slots[k].conn == Some(es[p].conn)
  }

  lemma ArrivalKept(s: Server, t: Server, es: seq<Event>, e: Event)
    requires ArrivalLaw(s, es) && |t.slots| == |s.slots|
    requires forall q | 0 <= q < |s.slots| && s.slots[q].conn.Some? :: t.slots[q].conn == s.slots[q].conn
    requires e.ConnectRequest? ==> Requests(es) < |t.slots| && t.slots[Requests(es)].conn == Some(e.conn)
    ensures ArrivalLaw(t, es + [e])
  {
    var all := es + [e];
    forall p | 0 <= p < |all| && all[p].ConnectRequest?
      ensures var k := Requests(all[..p]); k < |t.slots| && t.slots[k].conn == Some(all[p].conn)
    {
      if p < |es| { assert all[..p] == es[..p] && all[p] == es[p]; } else { assert all[..p] == es; }
    }
  }

  /** No event takes a slot away from its owner, and a request gets the next slot. */
  lemma OwnersStay(s: Server, es: seq<Event>, e: Event)
    requires !s.dead && SlotsAssigned(s, es) && !OnEvent(s, e).dead
    ensures |OnEvent(s, e).slots| == |s.slots|
    ensures forall q | 0 <= q < |s.slots| && s.slots[q].conn.Some? :: OnEvent(s, e).slots[q].conn == s.slots[q].conn
    ensures e.ConnectRequest? ==> s.ctr < |s.slots| && OnEvent(s, e).slots[s.ctr].conn == Some(e.conn)
  {
  }

  lemma StepKeepsSlotsLaw(s: Server, es: seq<Event>, e: Event)
    requires CmOrder(es + [e]) && ServerInv(s, es) && SlotsLaw(s, es) && !s.dead && !OnEvent(s, e).dead
    ensures SlotsLaw(OnEvent(s, e), es + [e])
  {
    DueEvent(es, e);
    match e
    case ConnectRequest(c) => RequestKeepsLaw(s, es, c);
    case Established(c) => EstablishKeepsLaw(s, es, c);
    case Disconnected(c) => DisconnectKeepsLaw(s, es, c);
    case Unknown => UnknownKeepsLaw(s, es);
  }

  /** What the connection manager's order says of an event that comes next. */
  lemma DueEvent(es: seq<Event>, e: Event)
    requires CmOrder(es + [e])
    ensures !e.Unknown? ==> e !in es
    ensures e.Established? || e.Disconnected? ==> ConnectRequest(e.conn) in es
    ensures e.ConnectRequest? ==> Established(e.conn) !in es && Disconnected(e.conn) !in es
  {
    var all := es + [e];
    assert all[|es|] == e && all[..|es|] == es;
    if e.ConnectRequest? { NotYet(es, e.conn); }
  }

  /** Before its request nothing is heard of a connection. */
  lemma NotYet(es: seq<Event>, c: nat)
    requires CmOrder(es + [ConnectRequest(c)])
    ensures ConnectRequest(c) !in es && Established(c) !in es && Disconnected(c) !in es
  {
    var all := es + [ConnectRequest(c)];
    assert all[|es|] == ConnectRequest(c);
    forall i | 0 <= i < |es| ensures es[i] != ConnectRequest(c) && es[i] != Established(c) && es[i] != Disconnected(c) {
      assert all[i] == es[i] && all[..i] == es[..i];
    }
  }

  /** Over every run in the connection manager's order, while the server lives: request number k
      gets slot k; a slot is CONNECTED exactly from the establishment of its connection to its
      disconnect; and a disconnect destroys the QP and then the id exactly if the connection had
      been established. */
  lemma {:induction false} SlotsFollowEvents(n: nat, es: seq<Event>)
    requires CmOrder(es) && !Run(n, es).dead
    ensures SlotsLaw(Run(n, es), es) && ArrivalLaw(Run(n, es), es)
  {
    if es != [] {
      var before, e := es[..|es| - 1], es[|es| - 1];
      CmOrderPrefix(es);
      DeadStays(Run(n, before), e);
      SlotsFollowEvents(n, before);
      EveryServerRun(n, before);
      DiesIffTooManyRequests(n, before);
      assert es == before + [e];
      StepKeepsSlotsLaw(Run(n, before), before, e);
      OwnersStay(Run(n, before), before, e);
      ArrivalKept(Run(n, before), Run(n, es), before, e);
    }
  }

  // ----- main's two event loops

  /** The server's states from its start through each event. */
  function States(n: nat, es: seq<Event>): (tr: seq<Server>)
    ensures |tr| == |es| + 1
    ensures forall k | 0 <= k < |tr| :: tr[k] == Run(n, es[..k])
  {
    seq(|es| + 1, k requires 0 <= k <= |es| => Run(n, es[..k]))
  }

  ghost predicate Sized(tr: seq<Server>, n: nat) {
    forall k | 0 <= k < |tr| :: |tr[k].slots| == n
  }

  ghost predicate IsTrace(tr: seq<Server>, n: nat, es: seq<Event>) {
    && |tr| == |es| + 1 && tr[0] == Fresh(n) && Sized(tr, n)
    && (forall k | 0 <= k < |es| :: Follows(tr, es, k))
  }

  predicate Follows(tr: seq<Server>, es: seq<Event>, k: nat)
    requires |tr| == |es| + 1 && k < |es|
  {
    tr[k + 1] == OnEvent(tr[k], es[k])
  }

  lemma StatesTrace(n: nat, es: seq<Event>)
    ensures IsTrace(States(n, es), n, es) && States(n, es)[|es|] == Run(n, es)
  {
    var tr := States(n, es);
    forall k | 0 <= k < |es| ensures Follows(tr, es, k) {
      RunNext(n, es, k);
    }
    assert es[..|es|] == es;
  }

  lemma RunNext(n: nat, es: seq<Event>, k: nat)
    requires k < |es|
    ensures Run(n, es[..k + 1]) == OnEvent(Run(n, es[..k]), es[k])
  {
    assert es[..k + 1][..k] == es[..k];
  }

  /** Where main is: waiting for slot i to be connected, in its second loop, through with it and
      back from destroy_device, or ended by die() or past the slot array. */
  datatype Progress = Connecting(slot: nat) | Serving | Returned | Died

  function Waiting(i: nat, n: nat): Progress {
    if i < n then Connecting(i) else Serving
  }

  predicate SlotConnected(s: Server, i: nat) {
    i < |s.slots| && s.slots[i].state == CONNECTED
  }

  /** Where main is once the handler of e has left the server in state s. */
  function Moved(p: Progress, s: Server, e: Event): Progress {
    match p
    case Connecting(i) =>
      if s.dead then Died
      else if Breaks(e) || SlotConnected(s, i) then Waiting(i + 1, |s.slots|)
      else p
    case Serving =>
      if s.dead then Died
      else if Breaks(e) then (if s.device then Returned else Died)
      else p
    case _ => p
  }

  /** Where main is after the first k events; those after its end it never sees. */
  function MainAt(tr: seq<Server>, es: seq<Event>, k: nat): Progress
    requires |tr| == |es| + 1 && k <= |es|
  {
    if k == 0 then Waiting(0, |tr[0].slots|) else Moved(MainAt(tr, es, k - 1), tr[k], es[k - 1])
  }

  function MainAfter(n: nat, es: seq<Event>): Progress {
    MainAt(States(n, es), es, |es|)
  }

  lemma {:induction false} MainPrefix(tr: seq<Server>, es: seq<Event>, tr': seq<Server>, es': seq<Event>, k: nat)
    requires |tr| == |es| + 1 && |tr'| == |es'| + 1 && k <= |es| && k <= |es'|
    requires forall i | 0 <= i <= k :: tr[i] == tr'[i]
    requires forall i | 0 <= i < k :: es[i] == es'[i]
    ensures MainAt(tr, es, k) == MainAt(tr', es', k)
  {
    if k > 0 { MainPrefix(tr, es, tr', es', k - 1); }
  }

  /** One more event. */
  lemma MainAppend(n: nat, es: seq<Event>, e: Event)
    ensures MainAfter(n, es + [e]) == Moved(MainAfter(n, es), Run(n, es + [e]), e)
  {
    var all := es + [e];
    var tr, tr' := States(n, es), States(n, all);
    forall i | 0 <= i <= |es| ensures tr[i] == tr'[i] { assert all[..i] == es[..i]; }
    MainPrefix(tr, es, tr', all, |es|);
    assert all[..|all|] == all;
  }

  predicate Running(p: Progress) {
    p.Connecting? || p.Serving?
  }

  /** While main runs, the server is alive. */
  lemma {:induction false} RunningAlive(tr: seq<Server>, n: nat, es: seq<Event>, k: nat)
    requires |tr| == |es| + 1 && Sized(tr, n) && !tr[0].dead && k <= |es| && Running(MainAt(tr, es, k))
    ensures !tr[k].dead && (MainAt(tr, es, k).Connecting? ==> MainAt(tr, es, k).slot < n)
  {
    if k > 0 { RunningAlive(tr, n, es, k - 1); }
  }

  /** Only requests and establishments: no handler returns nonzero. */
  predicate NoBreak(es: seq<Event>) {
    forall i | 0 <= i < |es| :: es[i].ConnectRequest? || es[i].Established?
  }

  lemma StaysOneStep(s: Server, e: Event, j: nat)
    requires SlotConnected(s, j) && !Breaks(e)
    ensures SlotConnected(OnEvent(s, e), j)
  {
  }

  lemma {:induction false} ConnectedStays(tr: seq<Server>, n: nat, es: seq<Event>, j: nat, k: nat, m: nat)
    requires IsTrace(tr, n, es) && k <= m <= |es| && NoBreak(es) && SlotConnected(tr[k], j)
    ensures SlotConnected(tr[m], j)
    decreases m - k
  {
    if k < m {
      assert Follows(tr, es, k);
      StaysOneStep(tr[k], es[k], j);
      ConnectedStays(tr, n, es, j, k + 1, m);
    }
  }

  /** Slot j is connected once base + j events have been handled. */
  predicate Served(tr: seq<Server>, base: int, j: nat) {
    0 <= base + j < |tr| && SlotConnected(tr[base + j], j)
  }

  ghost predicate FirstServed(tr: seq<Server>, base: int, i: nat) {
    forall j | 0 <= j < i :: Served(tr, base, j)
  }

  /** The slots are connected in time for the connect loop: it fetches an event before it looks
      at a slot, so slot j has to be connected while n - 1 - j events are still to come. */
  ghost predicate InTime(tr: seq<Server>, n: nat) {
    FirstServed(tr, |tr| - n, n)
  }

  /** Nothing starts out connected, and what is connected stays so. */
  ghost predicate Sticky(tr: seq<Server>, n: nat) {
    && |tr| > 0 && Sized(tr, n) && !tr[0].dead
    && (forall j: nat :: !SlotConnected(tr[0], j))
    && forall j: nat, k: nat, m: nat | k <= m < |tr| && SlotConnected(tr[k], j) :: SlotConnected(tr[m], j)
  }

  lemma TraceSticky(tr: seq<Server>, n: nat, es: seq<Event>)
    requires IsTrace(tr, n, es) && NoBreak(es)
    ensures Sticky(tr, n)
  {
    forall j: nat, k: nat, m: nat | k <= m < |tr| && SlotConnected(tr[k], j) ensures SlotConnected(tr[m], j) {
      ConnectedStays(tr, n, es, j, k, m);
    }
  }

  // ----- when is the connect loop through?

  function Turn(p: Progress, n: nat): nat {
    if p.Connecting? then p.slot else n
  }

  /** Event p ends the turn of slot j. */
  predicate EndsTurn(tr: seq<Server>, es: seq<Event>, p: nat, j: nat) {
    p < |es| && p + 1 < |tr| && (es[p].Disconnected? || es[p].Unknown? || SlotConnected(tr[p + 1], j))
  }

  /** Among the first m events, ps lists one after the other an event to end each slot's turn. */
  ghost predicate Turns(tr: seq<Server>, es: seq<Event>, ps: seq<nat>, m: nat) {
    && (forall j | 0 <= j < |ps| :: ps[j] < m && EndsTurn(tr, es, ps[j], j))
    && (forall i, j | 0 <= i < j < |ps| :: ps[i] < ps[j])
  }

  ghost predicate TurnsTakenBy(tr: seq<Server>, n: nat, es: seq<Event>, m: nat) {
    exists ps :: |ps| == n && Turns(tr, es, ps, m)
  }

  /** What the turns depend on of a trace. */
  ghost predicate Plain(tr: seq<Server>, n: nat, es: seq<Event>) {
    && |tr| == |es| + 1 && Sized(tr, n) && !tr[0].dead
    && forall k | 0 < k < |tr| && !tr[k].dead :: !tr[k - 1].dead
  }

  lemma TracePlain(tr: seq<Server>, n: nat, es: seq<Event>)
    requires IsTrace(tr, n, es)
    ensures Plain(tr, n, es)
  {
    forall k | 0 < k < |tr| && !tr[k].dead ensures !tr[k - 1].dead {
      assert Follows(tr, es, k - 1);
      DeadStays(tr[k - 1], es[k - 1]);
    }
  }

  lemma NextTurn(tr: seq<Server>, n: nat, es: seq<Event>, m: nat)
    requires Plain(tr, n, es) && 0 < m <= |es| && Running(MainAt(tr, es, m))
    ensures Running(MainAt(tr, es, m - 1))
    ensures var i := Turn(MainAt(tr, es, m - 1), n);
      i <= n && Turn(MainAt(tr, es, m), n) == if i < n && EndsTurn(tr, es, m - 1, i) then i + 1 else i
  {
    RunningAlive(tr, n, es, m);
    RunningAlive(tr, n, es, m - 1);
  }

  /** The turns that main has taken. */
  lemma {:induction false} TurnsBehind(tr: seq<Server>, n: nat, es: seq<Event>, m: nat) returns (ps: seq<nat>)
    requires Plain(tr, n, es) && m <= |es| && Running(MainAt(tr, es, m))
    ensures |ps| == Turn(MainAt(tr, es, m), n) && Turns(tr, es, ps, m)
  {
    ps := [];
    if m > 0 {
      NextTurn(tr, n, es, m);
      ps := TurnsBehind(tr, n, es, m - 1);
      if |ps| < n && EndsTurn(tr, es, m - 1, |ps|) {
        ps := ps + [m - 1];
      }
    }
  }

  /** No other choice of events gets further. */
  lemma {:induction false} NeverBehind(tr: seq<Server>, n: nat, es: seq<Event>, m: nat, ps: seq<nat>)
    requires Plain(tr, n, es) && m <= |es| && Running(MainAt(tr, es, m)) && |ps| <= n && Turns(tr, es, ps, m)
    ensures |ps| <= Turn(MainAt(tr, es, m), n)
    decreases m
  {
    var k := |ps|;
    if k > 0 {
      assert ps[k - 1] < m && EndsTurn(tr, es, ps[k - 1], k - 1);
      NextTurn(tr, n, es, m);
      if ps[k - 1] < m - 1 {
        assert forall j | 0 <= j < k :: ps[j] <= ps[k - 1];
        NeverBehind(tr, n, es, m - 1, ps);
      } else {
        assert forall j | 0 <= j < k - 1 :: ps[j] < ps[k - 1];
        NeverBehind(tr, n, es, m - 1, ps[..k - 1]);
      }
    }
  }

  /** While main runs, it is through its connect loop if and only if there were events to end all
      the turns. */
  lemma ServingIffTurnsTaken(tr: seq<Server>, n: nat, es: seq<Event>, m: nat)
    requires Plain(tr, n, es) && m <= |es| && Running(MainAt(tr, es, m))
    ensures MainAt(tr, es, m) == Serving <==> TurnsTakenBy(tr, n, es, m)
  {
    RunningAlive(tr, n, es, m);
    var ps := TurnsBehind(tr, n, es, m);
    if TurnsTakenBy(tr, n, es, m) {
      var qs :| |qs| == n && Turns(tr, es, qs, m);
      NeverBehind(tr, n, es, m, qs);
    }
  }

  /** Event k breaks the loop with every turn taken. */
  ghost predicate LateBreak(tr: seq<Server>, n: nat, es: seq<Event>, k: nat) {
    k < |es| && (es[k].Disconnected? || es[k].Unknown?) && TurnsTakenBy(tr, n, es, k)
  }

  ghost predicate LateBreakBy(tr: seq<Server>, n: nat, es: seq<Event>, m: nat) {
    exists k :: 0 <= k < m && LateBreak(tr, n, es, k)
  }

  lemma LateBreakNext(tr: seq<Server>, n: nat, es: seq<Event>, m: nat)
    ensures LateBreakBy(tr, n, es, m + 1) <==> LateBreakBy(tr, n, es, m) || LateBreak(tr, n, es, m)
  {
  }

  /** Main runs exactly as long as no handler died and no event broke the loop too late. */
  lemma {:induction false} RunningIff(tr: seq<Server>, n: nat, es: seq<Event>, m: nat)
    requires Plain(tr, n, es) && m <= |es|
    ensures Running(MainAt(tr, es, m)) <==> !tr[m].dead && !LateBreakBy(tr, n, es, m)
  {
    if m > 0 {
      RunningIff(tr, n, es, m - 1);
      LateBreakNext(tr, n, es, m - 1);
      if Running(MainAt(tr, es, m - 1)) {
        ServingIffTurnsTaken(tr, n, es, m - 1);
      }
    }
  }

  /** For every list of events: main is in its second loop if and only if there were events, one
      after the other, to end each slot's turn (by connecting the slot or by breaking the loop),
      no handler died, and no event broke the loop after that. */
  lemma ConnectsIff(n: nat, es: seq<Event>)
    ensures MainAfter(n, es) == Serving <==>
      var tr := States(n, es);
      TurnsTakenBy(tr, n, es, |es|) && !Run(n, es).dead && !LateBreakBy(tr, n, es, |es|)
  {
    var tr := States(n, es);
    StatesTrace(n, es);
    TracePlain(tr, n, es);
    RunningIff(tr, n, es, |es|);
    if Running(MainAt(tr, es, |es|)) {
      ServingIffTurnsTaken(tr, n, es, |es|);
    }
  }

  /** Event p_j leaves room for the turns after it. */
  lemma {:induction false} RoomAfter(tr: seq<Server>, es: seq<Event>, ps: seq<nat>, m: nat, j: nat)
    requires Turns(tr, es, ps, m) && j < |ps|
    ensures ps[j] + (|ps| - j) <= m
    decreases |ps| - j
  {
    if j + 1 < |ps| { RoomAfter(tr, es, ps, m, j + 1); }
  }

  /** Without breaking events the turns are those of slots connected in time. */
  lemma TurnsTakenIffInTime(tr: seq<Server>, n: nat, es: seq<Event>)
    requires |tr| == |es| + 1 && Sticky(tr, n) && NoBreak(es)
    ensures TurnsTakenBy(tr, n, es, |es|) <==> InTime(tr, n)
  {
    var base := |tr| - n;
    if TurnsTakenBy(tr, n, es, |es|) {
      var ps :| |ps| == n && Turns(tr, es, ps, |es|);
      forall j | 0 <= j < n ensures Served(tr, base, j) {
        RoomAfter(tr, es, ps, |es|, j);
        assert EndsTurn(tr, es, ps[j], j);
      }
    }
    if InTime(tr, n) {
      assert n > 0 ==> Served(tr, base, 0);
      var ps := seq(n, j requires 0 <= j < n => |es| - n + j);
      forall j | 0 <= j < n ensures EndsTurn(tr, es, ps[j], j) {
        assert Served(tr, base, j);
      }
      assert Turns(tr, es, ps, |es|);
    }
  }

  /** With no handler returning nonzero: main is through its connect loop, and still running, if
      and only if the slots were connected in time and no handler died. */
  lemma ConnectsIffInTime(n: nat, es: seq<Event>)
    requires NoBreak(es)
    ensures MainAfter(n, es) == Serving <==> InTime(States(n, es), n) && !Run(n, es).dead
  {
    var tr := States(n, es);
    StatesTrace(n, es);
    InTimeForTrace(tr, n, es);
    ConnectsIff(n, es);
  }

  lemma InTimeForTrace(tr: seq<Server>, n: nat, es: seq<Event>)
    requires IsTrace(tr, n, es) && NoBreak(es)
    ensures (TurnsTakenBy(tr, n, es, |es|) <==> InTime(tr, n)) && !LateBreakBy(tr, n, es, |es|)
  {
    TraceSticky(tr, n, es);
    TurnsTakenIffInTime(tr, n, es);
  }

  lemma DeadStays(s: Server, e: Event)
    ensures s.dead ==> OnEvent(s, e).dead
  {
  }

  ghost predicate AllConnected(s: Server) {
    forall j | 0 <= j < |s.slots| :: s.slots[j].state == CONNECTED
  }

  lemma InTimeConnects(tr: seq<Server>, n: nat, es: seq<Event>)
    requires IsTrace(tr, n, es) && NoBreak(es) && InTime(tr, n)
    ensures AllConnected(tr[|es|])
  {
    var base, s := |tr| - n, tr[|es|];
    forall j | 0 <= j < n ensures s.slots[j].state == CONNECTED {
      assert Served(tr, base, j);
      ConnectedStays(tr, n, es, j, base + j, |es|);
    }
  }

  /** If the connect loop gets through with no handler returning nonzero, every slot is connected
      and belongs to an established connection of its own. */
  lemma ConnectedSlotsDistinct(n: nat, es: seq<Event>)
    requires CmOrder(es) && NoBreak(es) && MainAfter(n, es) == Serving
    ensures var s := Run(n, es);
      && AllConnected(s)
      && (forall i | 0 <= i < n :: s.slots[i].conn.Some? && Established(s.slots[i].conn.value) in es)
      && (forall i, j | 0 <= i < j < n :: s.slots[i].conn != s.slots[j].conn)
  {
    ConnectsIffInTime(n, es);
    StatesTrace(n, es);
    InTimeConnects(States(n, es), n, es);
    EveryServerRun(n, es);
  }

  lemma {:induction false} EndStays(tr: seq<Server>, es: seq<Event>, k: nat, m: nat)
    requires |tr| == |es| + 1 && k <= m <= |es| && !Running(MainAt(tr, es, k))
    ensures MainAt(tr, es, m) == MainAt(tr, es, k)
    decreases m - k
  {
    if k < m { EndStays(tr, es, k + 1, m); }
  }

  /** How requests, life and the device of the server hang together along a run. */
  lemma ServerAt(n: nat, es: seq<Event>, k: nat)
    requires CmOrder(es) && k <= |es|
    ensures Run(n, es[..k]).dead <==> Requests(es[..k]) > n
    ensures !Run(n, es[..k]).dead ==> (Run(n, es[..k]).device <==> Requests(es[..k]) > 0)
  {
    PrefixOrder(es, k);
    DiesIffTooManyRequests(n, es[..k]);
    EveryServerRun(n, es[..k]);
  }

  lemma {:induction false} PrefixOrder(es: seq<Event>, k: nat)
    requires CmOrder(es) && k <= |es|
    ensures CmOrder(es[..k])
    decreases |es| - k
  {
    if k == |es| {
      assert es[..k] == es;
    } else {
      CmOrderPrefix(es);
      PrefixOrder(es[..|es| - 1], k);
      assert es[..|es| - 1][..k] == es[..k];
    }
  }

  lemma {:induction false} RequestsGrow(es: seq<Event>, k: nat, m: nat)
    requires k <= m <= |es|
    ensures Requests(es[..k]) <= Requests(es[..m])
    decreases m
  {
    if k < m {
      RequestsGrow(es, k, m - 1);
      assert es[..m][..m - 1] == es[..m - 1];
    }
  }

  /** Event k is the first to break the loop too late, with the server alive and its device set up. */
  ghost predicate Releases(tr: seq<Server>, n: nat, es: seq<Event>, k: nat) {
    && LateBreak(tr, n, es, k) && !LateBreakBy(tr, n, es, k)
    && k + 1 < |tr| && !tr[k + 1].dead && tr[k + 1].device
  }

  lemma {:induction false} ReturnedIff(tr: seq<Server>, n: nat, es: seq<Event>, m: nat)
    requires Plain(tr, n, es) && m <= |es|
    ensures MainAt(tr, es, m).Returned? <==> exists k :: 0 <= k < m && Releases(tr, n, es, k)
  {
    if m > 0 {
      ReturnedIff(tr, n, es, m - 1);
      RunningIff(tr, n, es, m - 1);
      if Running(MainAt(tr, es, m - 1)) {
        ServingIffTurnsTaken(tr, n, es, m - 1);
        assert MainAt(tr, es, m).Returned? <==> Releases(tr, n, es, m - 1);
      }
    }
  }

  /** The first late break, with some connection requested by then but no more than there are slots. */
  ghost predicate ReturnsAt(n: nat, es: seq<Event>, k: nat) {
    && LateBreak(States(n, es), n, es, k) && !LateBreakBy(States(n, es), n, es, k)
    && 0 < Requests(es[..k]) <= n
  }

  lemma ReleasesIff(n: nat, es: seq<Event>, k: nat)
    requires CmOrder(es) && k < |es|
    ensures Releases(States(n, es), n, es, k) <==> ReturnsAt(n, es, k)
  {
    if Breaks(es[k]) {
      ServerAt(n, es, k + 1);
      BreakIsNoRequest(es, k);
    }
  }

  /** The server's main is over exactly if more connections were requested than it has slots, or
      an event broke the loop (any disconnect among them) after there had been events to end all
      turns. It returns, rather than dies, exactly if the first such event finds some connection
      requested and not too many. */
  lemma MainEndsIff(n: nat, es: seq<Event>)
    requires CmOrder(es)
    ensures !Running(MainAfter(n, es)) <==> Requests(es) > n || LateBreakBy(States(n, es), n, es, |es|)
    ensures MainAfter(n, es).Returned? <==> exists k :: 0 <= k < |es| && ReturnsAt(n, es, k)
  {
    var tr := States(n, es);
    StatesTrace(n, es);
    TracePlain(tr, n, es);
    RunningIff(tr, n, es, |es|);
    DiesIffTooManyRequests(n, es);
    ReturnedIff(tr, n, es, |es|);
    forall k | 0 <= k < |es| ensures Releases(tr, n, es, k) <==> ReturnsAt(n, es, k) {
      ReleasesIff(n, es, k);
    }
  }

  /** Nothing but unknown events came, one for each slot's turn and one more. */
  predicate OnlyUnknown(n: nat, es: seq<Event>) {
    n < |es| && forall k | 0 <= k <= n :: es[k] == Unknown
  }

  lemma {:induction false} NoRequestNoEvent(es: seq<Event>, m: nat)
    requires CmOrder(es) && m <= |es| && Requests(es[..m]) == 0
    ensures forall k | 0 <= k < m :: es[k] == Unknown
    decreases m
  {
    if m > 0 {
      assert es[..m][..m - 1] == es[..m - 1];
      NoRequestNoEvent(es, m - 1);
    }
  }

  lemma {:induction false} UnknownNoRequest(es: seq<Event>, m: nat)
    requires m <= |es| && forall k | 0 <= k < m :: es[k] == Unknown
    ensures Requests(es[..m]) == 0
  {
    if m > 0 {
      UnknownNoRequest(es, m - 1);
      assert es[..m][..m - 1] == es[..m - 1];
    }
  }

  lemma {:induction false} FirstLateBreak(tr: seq<Server>, n: nat, es: seq<Event>, m: nat) returns (k: nat)
    requires LateBreakBy(tr, n, es, m)
    ensures k < m && LateBreak(tr, n, es, k) && !LateBreakBy(tr, n, es, k)
  {
    var i :| 0 <= i < m && LateBreak(tr, n, es, i);
    k := i;
    if LateBreakBy(tr, n, es, i) { k := FirstLateBreak(tr, n, es, i); }
  }

  lemma UnknownTurns(tr: seq<Server>, n: nat, es: seq<Event>, m: nat)
    requires |tr| == |es| + 1 && OnlyUnknown(n, es) && m > n
    ensures LateBreakBy(tr, n, es, m)
  {
    var ps := seq(n, j requires 0 <= j < n => j);
    assert Turns(tr, es, ps, n);
    assert LateBreak(tr, n, es, n);
  }

  lemma OnlyUnknownKills(n: nat, es: seq<Event>)
    requires CmOrder(es) && OnlyUnknown(n, es)
    ensures MainAfter(n, es) == Died
  {
    MainEndsIff(n, es);
    UnknownTurns(States(n, es), n, es, |es|);
    forall k | 0 <= k < |es| ensures !ReturnsAt(n, es, k) {
      if k <= n { UnknownNoRequest(es, k); } else { UnknownTurns(States(n, es), n, es, k); }
    }
  }

  /** A late break before any request has seen unknown events only. */
  lemma LateBreakUnrequested(tr: seq<Server>, n: nat, es: seq<Event>, k: nat)
    requires CmOrder(es) && LateBreak(tr, n, es, k) && Requests(es[..k]) == 0
    ensures OnlyUnknown(n, es)
  {
    var ps :| |ps| == n && Turns(tr, es, ps, k);
    if n > 0 { RoomAfter(tr, es, ps, k, 0); }
    BreakIsNoRequest(es, k);
    NoRequestNoEvent(es, k + 1);
  }

  /** A server that gets no more requests than it has slots dies exactly if it is startled out of
      both loops by unknown events before any request: destroy_device then finds no device. */
  lemma DiesIffOnlyUnknown(n: nat, es: seq<Event>)
    requires CmOrder(es) && Requests(es) <= n
    ensures MainAfter(n, es) == Died <==> OnlyUnknown(n, es)
  {
    if OnlyUnknown(n, es) { OnlyUnknownKills(n, es); }
    if MainAfter(n, es) == Died {
      MainEndsIff(n, es);
      var k := FirstLateBreak(States(n, es), n, es, |es|);
      assert !ReturnsAt(n, es, k) && es[..|es|] == es;
      RequestsGrow(es, k, |es|);
      LateBreakUnrequested(States(n, es), n, es, k);
    }
  }

  lemma BreakIsNoRequest(es: seq<Event>, k: nat)
    requires k < |es| && Breaks(es[k])
    ensures Requests(es[..k + 1]) == Requests(es[..k])
  {
    assert es[..k + 1][..k] == es[..k];
  }

  class RdmaServer {
    const queues: array<Slot>
    var ctr: nat
    var device: bool
    var effects: seq<Effect>
    var dead: bool

    /** alloc_control. */
    constructor (n: nat)
      ensures View() == Fresh(n) && fresh(queues)
    {
      queues := new Slot[n](i => Slot(INIT, None));
      ctr, device, effects, dead := 0, false, [], false;
    }

    ghost function View(): Server
      reads this, queues
    {
      Server(queues[..], ctr, device, effects, dead)
    }

    method HandleRequest(conn: nat)
      requires !dead
      modifies this, queues
      ensures View() == OnConnectRequest(old(View()), conn)
    {
      var q := ctr;
      ctr := ctr + 1;
      if q >= queues.Length || queues[q].state != INIT {
        dead := true;
        return;
      }
      queues[q] := Slot(INIT, Some(conn));
      if !device {
        effects := effects + [SetupDevice];
        device := true;
      }
      effects := effects + [CreateQp(q)];
      assert queues[..] == old(queues[..])[q := Slot(INIT, Some(conn))];
    }

    method HandleConnection(q: nat)
      requires !dead
      modifies this, queues
      ensures View() == OnConnection(old(View()), q)
    {
      if q >= queues.Length || queues[q].state != INIT {
        dead := true;
        return;
      }
      if q == 0 {
        effects := effects + [SendRegion(0)];
      }
      queues[q] := queues[q].(state := CONNECTED);
      assert queues[..] == old(queues[..])[q := old(queues[q]).(state := CONNECTED)];
    }

    method HandleDisconnect(q: nat)
      requires !dead
      modifies this, queues
      ensures View() == OnDisconnect(old(View()), q)
    {
      if q >= queues.Length {
        dead := true;
      } else if queues[q].state == CONNECTED {
        queues[q] := queues[q].(state := INIT);
        effects := effects + [DestroyQp(q)];
        effects := effects + [DestroyId(q)];
        assert queues[..] == old(queues[..])[q := old(queues[q]).(state := INIT)];
      }
    }

    /** on_event: ret is its return value. */
    method Handle(e: Event) returns (ret: int)
      modifies this, queues
      ensures View() == OnEvent(old(View()), e) && (ret != 0 <==> e.Disconnected? || e.Unknown?)
    {
      ret := if Breaks(e) then 1 else 0;
      if dead { return; }
      match e
      case ConnectRequest(conn) => HandleRequest(conn);
      case Established(conn) =>
        var q := SlotOf(queues[..], conn);
        HandleConnection(q);
      case Disconnected(conn) =>
        var q := SlotOf(queues[..], conn);
        HandleDisconnect(q);
      case Unknown =>
    }

    method HandleNth(es: seq<Event>, pos: nat, ghost tr: seq<Server>) returns (ret: int)
      requires IsTrace(tr, queues.Length, es) && pos < |es| && View() == tr[pos]
      modifies this, queues
      ensures View() == tr[pos + 1] && (ret != 0 <==> Breaks(es[pos]))
    {
      assert Follows(tr, es, pos);
      ret := Handle(es[pos]);
    }

    /** Main's turn for slot i: handle events until one ends the turn or the process. Without
        such an event the server is left sitting in rdma_get_cm_event. */
    method ServeSlot(es: seq<Event>, start: nat, i: nat, ghost tr: seq<Server>) returns (next: Progress, pos: nat)
      requires IsTrace(tr, queues.Length, es) && start <= |es| && View() == tr[start]
      requires MainAt(tr, es, start) == Connecting(i) && i < queues.Length
      modifies this, queues
      ensures start <= pos <= |es| && View() == tr[pos] && next == MainAt(tr, es, pos)
      ensures next == Connecting(i) ==> pos == |es|
      ensures next in {Connecting(i), Waiting(i + 1, queues.Length), Died}
    {
      next, pos := Connecting(i), start;
      while pos < |es| && next == Connecting(i)
        invariant start <= pos <= |es| && View() == tr[pos] && next == MainAt(tr, es, pos)
        invariant next in {Connecting(i), Waiting(i + 1, queues.Length), Died}
      {
        next := ServeEvent(es, pos, i, tr);
        pos := pos + 1;
      }
    }

    /** One event of slot i's turn. */
    method ServeEvent(es: seq<Event>, pos: nat, i: nat, ghost tr: seq<Server>) returns (next: Progress)
      requires IsTrace(tr, queues.Length, es) && pos < |es| && View() == tr[pos] && i < queues.Length
      modifies this, queues
      ensures View() == tr[pos + 1] && next == Moved(Connecting(i), tr[pos + 1], es[pos])
    {
      var ret := HandleNth(es, pos, tr);
      if dead {
        next := Died;
      } else if ret != 0 || queues[i].state == CONNECTED {
        next := Waiting(i + 1, queues.Length);
      } else {
        next := Connecting(i);
      }
    }

    /** The connect loop of main: through, with the second loop to come, or died, or still
        waiting when the events ran out. */
    method ConnectLoop(es: seq<Event>, ghost tr: seq<Server>) returns (next: Progress, used: nat)
      requires IsTrace(tr, queues.Length, es) && View() == tr[0]
      modifies this, queues
      ensures used <= |es| && View() == tr[used]
      ensures next == MainAt(tr, es, used) && !next.Returned?
      ensures next.Connecting? ==> used == |es|
    {
      var n, i := queues.Length, 0;
      used, next := 0, Waiting(0, n);
      while i < n
        invariant 0 <= i <= n && used <= |es| && View() == tr[used]
        invariant next == MainAt(tr, es, used) == Waiting(i, n)
      {
        next, used := ServeSlot(es, used, i, tr);
        if next == Connecting(i) || next == Died { return; }
        i := i + 1;
      }
    }

    /** The second loop, and destroy_device, which dies if no device was ever set up. */
    method ServeLoop(es: seq<Event>, start: nat, ghost tr: seq<Server>) returns (next: Progress, used: nat)
      requires IsTrace(tr, queues.Length, es) && start <= |es| && View() == tr[start]
      requires MainAt(tr, es, start) == Serving
      modifies this, queues
      ensures start <= used <= |es| && View() == tr[used]
      ensures next == MainAt(tr, es, used) && (Running(next) ==> used == |es|)
    {
      next, used := Serving, start;
      while used < |es| && next == Serving
        invariant start <= used <= |es| && View() == tr[used]
        invariant next == MainAt(tr, es, used) && !next.Connecting?
      {
        var ret := HandleNth(es, used, tr);
        used := used + 1;
        if dead {
          next := Died;
        } else if ret != 0 {
          next := if device then Returned else Died;
        }
      }
    }

    /** main from its first event on: it has ended, or has handled all the events there are and
        waits for more, in its second loop exactly if there were events to end all turns. */
    method RunMain(es: seq<Event>) returns (end: Progress)
      requires View() == Fresh(queues.Length)
      modifies this, queues
      ensures end == MainAfter(queues.Length, es)
      ensures Running(end) ==> View() == Run(queues.Length, es)
      ensures CmOrder(es) ==> (!Running(end) <==>
        Requests(es) > queues.Length || LateBreakBy(States(queues.Length, es), queues.Length, es, |es|))
      ensures Running(end) ==> (end == Serving <==> TurnsTakenBy(States(queues.Length, es), queues.Length, es, |es|))
    {
      ghost var n := queues.Length;
      ghost var tr := States(n, es);
      StatesTrace(n, es);
      var used;
      end, used := ConnectLoop(es, tr);
      if end == Serving {
        end, used := ServeLoop(es, used, tr);
      }
      if !Running(end) { EndStays(tr, es, used, |es|); }
      if CmOrder(es) { MainEndsIff(n, es); }
      TracePlain(tr, n, es);
      if Running(end) { ServingIffTurnsTaken(tr, n, es, |es|); }
    }
  }

  function SwappedEstablishments(): seq<Event> {
    [ConnectRequest(0), ConnectRequest(1), Established(1), Established(0)]
  }

  /** The server after k of them. */
  function SwappedState(k: nat): Server
    requires k <= 4
  {
    var first := Slot(if k < 4 then INIT else CONNECTED, if k < 1 then None else Some(0));
    var second := Slot(if k < 3 then INIT else CONNECTED, if k < 2 then None else Some(1));
    var effects := [SetupDevice, CreateQp(0), CreateQp(1), SendRegion(0)];
    Server([first, second], if k < 2 then k else 2, k > 0,
           if k == 0 then [] else if k == 1 then effects[..2] else if k < 4 then effects[..3] else effects, false)
  }

  lemma SwappedMoves(k: nat)
    requires k < 4
    ensures OnEvent(SwappedState(k), SwappedEstablishments()[k]) == SwappedState(k + 1)
  {
    if k == 2 { assert SlotOf(SwappedState(2).slots, 1) == 1; }
  }

  lemma {:induction false} SwappedStates(tr: seq<Server>, es: seq<Event>, k: nat)
    requires IsTrace(tr, 2, es) && k <= 4 <= |es| && es[..4] == SwappedEstablishments()
    ensures tr[k] == SwappedState(k) && MainAt(tr, es, k) == Connecting(if k < 4 then 0 else 1)
  {
    if k > 0 {
      SwappedStates(tr, es, k - 1);
      SwappedMoves(k - 1);
      assert Follows(tr, es, k - 1) && es[k - 1] == es[..4][k - 1];
    } else {
      assert tr[0].slots == SwappedState(0).slots;
    }
  }

  /** Two slots whose establishments arrive in the wrong order: both end up connected, but the
      connect loop is still waiting for one more event. If that is a third request, it kills the
      server inside the connect loop. */
  lemma OutOfOrderBlocks()
    ensures var es := SwappedEstablishments();
      && CmOrder(es) && NoBreak(es) && AllConnected(Run(2, es)) && MainAfter(2, es) == Connecting(1)
      && MainAfter(2, es + [ConnectRequest(2)]) == Died
  {
    SwappedOrder();
    SwappedBlocks(SwappedEstablishments());
    ThirdRequest(SwappedEstablishments() + [ConnectRequest(2)]);
  }

  lemma SwappedBlocks(es: seq<Event>)
    requires es == SwappedEstablishments()
    ensures AllConnected(Run(2, es)) && MainAfter(2, es) == Connecting(1)
  {
    assert es[..4] == es;
    StatesTrace(2, es);
    SwappedStates(States(2, es), es, 4);
  }

  lemma SwappedOrder()
    ensures CmOrder(SwappedEstablishments()) && NoBreak(SwappedEstablishments())
  {
    var es := SwappedEstablishments();
    assert es[..2][1] == ConnectRequest(1) && es[..3][0] == ConnectRequest(0);
  }

  lemma ThirdRequest(es: seq<Event>)
    requires |es| == 5 && es[..4] == SwappedEstablishments() && es[4] == ConnectRequest(2)
    ensures MainAfter(2, es) == Died
  {
    var tr := States(2, es);
    StatesTrace(2, es);
    SwappedStates(tr, es, 4);
    assert Follows(tr, es, 4);
  }
}
