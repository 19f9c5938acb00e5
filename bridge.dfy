/**
  `SocketSuperProductivityClient` (src/index.ts:19-108) and the socket.io
  connection handlers (src/index.ts:133-143): the registry of the one plugin
  socket, and the correlated request whose promise settles exactly once, by
  the plugin's acknowledgement or by the 10 s timer, whichever comes first.

  Timers and acknowledgements are events delivered to the request; the clock
  is a parameter.  The pure `Cell`/`Step` pair states one request's life for
  the lemmas, and the class `PendingRequest` is the promise object itself.
 */
module Bridge {
  import opened Json
  import opened Facade

  const ReplyTimeoutMs: int := 10000

  const NotConnectedMessage: string :=
    "Plugin Super Productivity não está conectado. Verifique se o plugin está instalado e ativo."

  function TimeoutMessage(event: string): string {
    "Timeout aguardando resposta do plugin para evento " + event
  }

  /** How a request's promise settles: resolved with a value or rejected with an Error's message. */
  datatype Outcome = Resolved(value: Value) | Rejected(message: string)

  /**
    The acknowledgement callback's decision: a reply that is truthy and
    carries a truthy `error` rejects with `new Error(response.error)`, whose
    message is `String(response.error)`; every other reply resolves as is.
   */
  function AckOutcome(response: Value): Outcome {
    if Truthy(response) && Truthy(Get(response, "error")) then
      Rejected(ToJsString(Get(response, "error")))
    else
      Resolved(response)
  }

  // ---------------------------------------------------------------------------
  // One request, as a value

  datatype CellState = Pending | Settled(outcome: Outcome)

  /** A request's promise and its timer: the event it was sent under, when the timer fires, and whether it is armed. */
  datatype Cell = Cell(event: string, deadline: int, state: CellState, timerArmed: bool)

  /** The timer is armed exactly while the promise is pending: no pending request is left without its backstop. */
  predicate WellFormed(c: Cell) {
    c.timerArmed <==> c.state.Pending?
  }

  /** What can happen to a request: the plugin's acknowledgement, or the clock reaching `now`. */
  datatype Event = Ack(response: Value) | Tick(now: int)

  /** An event that settles the request: any acknowledgement while pending, or the clock reaching the deadline. */
  predicate Effective(c: Cell, e: Event) {
    c.state.Pending? && (e.Ack? || (c.timerArmed && e.now >= c.deadline))
  }

  /**
    One event: the acknowledgement clears the timer and settles a pending
    promise; the timer, when armed and due, rejects with the timeout message.
    A settled promise never changes again.
   */
  function Step(c: Cell, e: Event): (d: Cell)
    requires WellFormed(c)
    ensures WellFormed(d) && d.event == c.event && d.deadline == c.deadline
    ensures c.state.Settled? ==> d.state == c.state
    ensures Effective(c, e) <==> d.state != c.state
  {
    match e
    case Ack(response) =>
      c.(timerArmed := false, state := if c.state.Pending? then Settled(AckOutcome(response)) else c.state)
    case Tick(now) =>
      if c.timerArmed && now >= c.deadline then
        c.(timerArmed := false, state := Settled(Rejected(TimeoutMessage(c.event))))
      else c
  }

  function Run(c: Cell, es: seq<Event>): (d: Cell)
    requires WellFormed(c)
    ensures WellFormed(d)
    decreases es
  {
    if es == [] then c else Run(Step(c, es[0]), es[1..])
  }

  /** Once settled, a request stays settled with the same outcome, whatever arrives later. */
  lemma {:induction false} SettledIsFinal(c: Cell, es: seq<Event>)
    requires WellFormed(c) && c.state.Settled?
    ensures Run(c, es).state == c.state
    decreases es
  {
    if es != [] {
      SettledIsFinal(Step(c, es[0]), es[1..]);
    }
  }

  /**
    Exactly one event settles a pending request: the first effective one.
    The acknowledgement and the timer race, and whichever comes second has
    no effect.
   */
  lemma {:induction false} FirstEffectiveEventDecides(c: Cell, es: seq<Event>, k: nat)
    requires WellFormed(c) && c.state.Pending?
    requires k < |es| && Effective(c, es[k])
    requires forall j :: 0 <= j < k ==> !Effective(c, es[j])
    ensures Run(c, es).state == Step(c, es[k]).state
    decreases k
  {
    if k == 0 {
      SettledIsFinal(Step(c, es[0]), es[1..]);
    } else {
      assert !Effective(c, es[0]);
      assert Step(c, es[0]) == c;
      FirstEffectiveEventDecides(c, es[1..], k - 1);
    }
  }

  /**
    A request the plugin never acknowledges is still pending before its
    deadline and rejected with the timeout message naming its event once the
    clock has reached it: it fails at, and not before, the configured time.
   */
  lemma {:induction false} UnansweredRequestTimesOut(c: Cell, es: seq<Event>)
    requires WellFormed(c) && c.state.Pending?
    requires forall j :: 0 <= j < |es| ==> es[j].Tick?
    ensures (forall j :: 0 <= j < |es| ==> es[j].now < c.deadline) ==> Run(c, es) == c
    ensures (exists j :: 0 <= j < |es| && es[j].now >= c.deadline) ==>
      Run(c, es).state == Settled(Rejected(TimeoutMessage(c.event)))
    decreases es
  {
    if es != [] {
      if es[0].now >= c.deadline {
        SettledIsFinal(Step(c, es[0]), es[1..]);
      } else {
        assert Step(c, es[0]) == c;
        UnansweredRequestTimesOut(c, es[1..]);
        if exists j :: 0 <= j < |es| && es[j].now >= c.deadline {
          var j :| 0 <= j < |es| && es[j].now >= c.deadline;
          assert es[1..][j - 1] == es[j];
        }
      }
    }
  }

  /** The promise object of one `emitWithAck` call, with its timeout handle. */
  class PendingRequest {
    const event: string
    const deadline: int
    var state: CellState
    var timerArmed: bool

    function Snapshot(): Cell
      reads this
    {
      Cell(event, deadline, state, timerArmed)
    }

    ghost predicate Valid()
      reads this
    {
      WellFormed(Snapshot())
    }

    /** A request that went out at `now`: pending, with its timer armed for `now + 10000`. */
    constructor InFlight(event: string, now: int)
      ensures Valid() && Snapshot() == Cell(event, now + ReplyTimeoutMs, Pending, true)
    {
      this.event := event;
      this.deadline := now + ReplyTimeoutMs;
      this.state := Pending;
      this.timerArmed := true;
    }

    /** A request that never went out: already rejected, and no timer was started. */
    constructor Failed(event: string, now: int, message: string)
      ensures Valid() && Snapshot() == Cell(event, now, Settled(Rejected(message)), false)
    {
      this.event := event;
      this.deadline := now;
      this.state := Settled(Rejected(message));
      this.timerArmed := false;
    }

    /** The acknowledgement callback (src/index.ts:42-49). */
    method OnAck(response: Value)
      requires Valid()
      modifies this
      ensures Valid() && Snapshot() == Step(old(Snapshot()), Ack(response))
    {
      timerArmed := false;
      if state.Pending? {
        state := Settled(AckOutcome(response));
      }
    }

    /** The clock reaching `now`: the timer callback runs if it is armed and due (src/index.ts:34-40). */
    method OnTick(now: int)
      requires Valid()
      modifies this
      ensures Valid() && Snapshot() == Step(old(Snapshot()), Tick(now))
    {
      if timerArmed && now >= deadline {
        timerArmed := false;
        state := Settled(Rejected(TimeoutMessage(event)));
      }
    }
  }

  // ---------------------------------------------------------------------------
  // The connection registry

  datatype ConnectionEvent = Connected(id: string) | Disconnected(id: string)

  /** A new connection always replaces the registered socket; a disconnect clears it only when the ids match. */
  function Register(current: Option<string>, e: ConnectionEvent): Option<string> {
    match e
    case Connected(id) => Some(id)
    case Disconnected(id) => if current == Some(id) then None else current
  }

  /** The registered socket after a history of connection events, starting with none. */
  function Registered(es: seq<ConnectionEvent>): Option<string>
    decreases |es|
  {
    if es == [] then None else Register(Registered(es[..|es| - 1]), es[|es| - 1])
  }

  predicate NoConnectionAfter(es: seq<ConnectionEvent>, k: nat) {
    forall j :: k < j < |es| ==> !es[j].Connected?
  }

  /**
    The registered socket is the latest connection, as long as that socket
    has not disconnected since; stale disconnects of replaced sockets change
    nothing.
   */
  lemma {:induction false} LatestConnectionIsRegistered(es: seq<ConnectionEvent>, k: nat)
    requires k < |es| && es[k].Connected? && NoConnectionAfter(es, k)
    ensures Registered(es) ==
      if forall j :: k < j < |es| ==> es[j] != Disconnected(es[k].id) then Some(es[k].id) else None
    decreases |es|
  {
    var last := |es| - 1;
    var prefix := es[..last];
    if k < last {
      assert forall j :: k < j < |prefix| ==> prefix[j] == es[j];
      LatestConnectionIsRegistered(prefix, k);
    }
  }

  /** With no connection ever made, no socket is registered. */
  lemma {:induction false} NeverConnected(es: seq<ConnectionEvent>)
    requires forall j :: 0 <= j < |es| ==> es[j].Disconnected?
    ensures Registered(es) == None
    decreases |es|
  {
    if es != [] {
      NeverConnected(es[..|es| - 1]);
    }
  }

  /** One socket message and the socket it went out on. */
  datatype Transmission = Transmission(socketId: string, message: Message)

  /** The server side of the bridge: the registered plugin socket and what has been sent on it. */
  class SocketClient {
    var socket: Option<string>
    ghost var sent: seq<Transmission>

    constructor ()
      ensures socket == None && sent == []
    {
      socket := None;
      sent := [];
    }

    /** `setSocket` (src/index.ts:22-24). */
    method SetSocket(s: Option<string>)
      modifies this
      ensures socket == s && sent == old(sent)
    {
      socket := s;
    }

    /** The `connection` handler (src/index.ts:133-135). */
    method OnConnection(id: string)
      modifies this
      ensures socket == Register(old(socket), Connected(id)) && sent == old(sent)
    {
      SetSocket(Some(id));
    }

    /** The `disconnect` handler of the socket with this id (src/index.ts:137-142). */
    method OnDisconnect(id: string)
      modifies this
      ensures socket == Register(old(socket), Disconnected(id)) && sent == old(sent)
    {
      if socket == Some(id) {
        SetSocket(None);
      }
    }

    /**
      `emitWithAck` (src/index.ts:26-51).  With no socket registered the
      promise is rejected at once with the not-connected error, nothing is
      sent and no timer is started; otherwise the message goes out on the
      registered socket and the request is pending with its timer armed.
     */
    method EmitWithAck(event: string, data: Value, now: int) returns (p: PendingRequest)
      modifies this
      ensures fresh(p) && p.Valid() && p.event == event && socket == old(socket)
      ensures old(socket).None? ==>
        && p.Snapshot() == Cell(event, now, Settled(Rejected(NotConnectedMessage)), false)
        && sent == old(sent)
      ensures old(socket).Some? ==>
        && p.Snapshot() == Cell(event, now + ReplyTimeoutMs, Pending, true)
        && sent == old(sent) + [Transmission(old(socket).value, Message(event, data))]
    {
      if socket.None? {
        p := new PendingRequest.Failed(event, now, NotConnectedMessage);
      } else {
        p := new PendingRequest.InFlight(event, now);
        sent := sent + [Transmission(socket.value, Message(event, data))];
      }
    }

    /**
      The fourteen façade methods (src/index.ts:53-107): each is exactly one
      `emitWithAck` with the event name and payload of the command table.
     */
    method Request(c: Call, now: int) returns (p: PendingRequest)
      modifies this
      ensures fresh(p) && p.Valid() && p.event == Command(c).event && socket == old(socket)
      ensures old(socket).None? ==> p.state == Settled(Rejected(NotConnectedMessage)) && sent == old(sent)
      ensures old(socket).Some? ==>
        && p.Snapshot() == Cell(Command(c).event, now + ReplyTimeoutMs, Pending, true)
        && sent == old(sent) + [Transmission(old(socket).value, Command(c))]
    {
      var m := Command(c);
      p := EmitWithAck(m.event, m.payload, now);
    }
  }
}
