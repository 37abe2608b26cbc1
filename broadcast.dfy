/**
 * server.js: `wss.broadcast`, which sends one string to every open
 * WebSocket client, and the event-reader callback that wraps each event in
 * an envelope `{ IotMessage, Timestamp, DeviceID }`, serialises it and
 * broadcasts it.
 *
 * The client set is taken as it stands when `broadcast` starts (the event
 * loop runs the `forEach` to completion). `JSON.stringify` is a parameter.
 */
module Relay {
  import opened Wrappers

  /** The `readyState` of a `ws` socket. */
  datatype ReadyState = Connecting | Open | Closing | Closed

  /** The console lines the two handlers write. */
  datatype LogLine =
    | Broadcasting(data: string)   // "Broadcasting to client: ${data}", before each send
    | SendError                    // `console.error(error)` after a send that threw
    | EventError(error: Thrown)    // "Error broadcasting message: ..." from the event callback

  /** What the event callback can throw before it reaches `broadcast`. */
  datatype Thrown = NotAFunction   // `Date.now()` is a number: it has no `toISOString`

  /** What `broadcast` reads of a client: its state and whether `send` throws. */
  datatype ClientView = ClientView(readyState: ReadyState, failing: bool)

  /** One connected client: its socket state and the frames it was sent. */
  class Socket {
    var readyState: ReadyState
    /** Whether `send` throws on this socket; set by the environment. */
    var failing: bool
    var sent: seq<string>

    constructor (readyState: ReadyState, failing: bool)
      ensures this.readyState == readyState && this.failing == failing && sent == []
    {
      this.readyState := readyState;
      this.failing := failing;
      sent := [];
    }

    ghost function View(): ClientView
      reads this
    {
      ClientView(readyState, failing)
    }

    /** `client.send(data)`: throws on a failing socket, queues the frame otherwise. */
    method Send(data: string) returns (ok: bool)
      modifies this
      ensures ok == !failing
      ensures readyState == old(readyState) && failing == old(failing)
      ensures sent == old(sent) + if ok then [data] else []
    {
      ok := !failing;
      if ok {
        sent := sent + [data];
      }
    }
  }

  ghost function Views(cs: seq<Socket>): (vs: seq<ClientView>)
    reads set c | c in cs
    ensures |vs| == |cs| && forall i :: 0 <= i < |cs| ==> vs[i] == cs[i].View()
  {
    seq(|cs|, i reads set c | c in cs requires 0 <= i < |cs| => cs[i].View())
  }

  /** The console lines for one client: none unless it is open, then the send and its error if it threw. */
  function LinesFor(c: ClientView, data: string): seq<LogLine>
  {
    if c.readyState != Open then [] else [Broadcasting(data)] + if c.failing then [SendError] else []
  }

  /** The frames one client receives from one `broadcast(data)`. */
  function Delivered(c: ClientView, data: string): (frames: seq<string>)
    ensures frames == [data] <==> c.readyState == Open && !c.failing
    ensures frames == [] <==> !(c.readyState == Open && !c.failing)
  {
    if c.readyState == Open && !c.failing then [data] else []
  }

  /** The console lines of `broadcast(data)` over the clients in iteration order. */
  function Log(cs: seq<ClientView>, data: string): seq<LogLine>
    decreases |cs|
  {
    if cs == [] then [] else Log(cs[..|cs| - 1], data) + LinesFor(cs[|cs| - 1], data)
  }

  /**
   * `wss.broadcast(data)`: the `forEach` over the clients, sending only
   * to open ones, each send in its own try/catch so one failure does not
   * stop the rest. `broadcast` itself never throws.
   */
  method Broadcast(clients: seq<Socket>, data: string) returns (log: seq<LogLine>)
    requires forall i, j :: 0 <= i < j < |clients| ==> clients[i] != clients[j]
    modifies set c | c in clients
    ensures Views(clients) == old(Views(clients))
    ensures log == Log(Views(clients), data)
    ensures forall i :: 0 <= i < |clients| ==>
      clients[i].sent == old(clients[i].sent) + Delivered(clients[i].View(), data)
  {
    ghost var vs := Views(clients);
    log := [];
    for i := 0 to |clients|
      invariant forall j :: 0 <= j < |clients| ==> clients[j].View() == vs[j]
      invariant forall j :: 0 <= j < |clients| ==>
        clients[j].sent == old(clients[j].sent) + if j < i then Delivered(vs[j], data) else []
      invariant log == Log(vs[..i], data)
    {
      assert vs[..i + 1][..i] == vs[..i];
      assert Log(vs[..i + 1], data) == Log(vs[..i], data) + LinesFor(vs[i], data);
      var lines := Serve(clients[i], data);
      log := log + lines;
    }
    assert vs[..|clients|] == vs;
  }

  /** One iteration of the `forEach`: the `readyState` test and the guarded send. */
  method Serve(c: Socket, data: string) returns (lines: seq<LogLine>)
    modifies c
    ensures c.View() == old(c.View())
    ensures lines == LinesFor(c.View(), data)
    ensures c.sent == old(c.sent) + Delivered(c.View(), data)
  {
    lines := [];
    if c.readyState == Open {
      lines := [Broadcasting(data)];
      var ok := c.Send(data);
      if !ok {
        lines := lines + [SendError];
      }
    }
  }

  /** Clients do not interfere: the lines for a set of clients are those of any split of it, in order. */
  lemma {:induction false} LogConcat(a: seq<ClientView>, b: seq<ClientView>, data: string)
    ensures Log(a + b, data) == Log(a, data) + Log(b, data)
    decreases |b|
  {
    if b == [] {
      assert a + b == a;
    } else {
      var init, last := b[..|b| - 1], b[|b| - 1];
      assert (a + b)[..|a + b| - 1] == a + init;
      assert (a + b)[|a + b| - 1] == last;
      assert Log(a + b, data) == Log(a + init, data) + LinesFor(last, data);
      LogConcat(a, init, data);
      assert Log(b, data) == Log(init, data) + LinesFor(last, data);
    }
  }

  /**
   * A client that is not open is skipped, and one whose send throws adds
   * its error line and leaves the clients after it to be served as usual.
   */
  lemma LogAround(a: seq<ClientView>, c: ClientView, b: seq<ClientView>, data: string)
    ensures Log(a + [c] + b, data) == Log(a, data) + LinesFor(c, data) + Log(b, data)
  {
    LogConcat(a + [c], b, data);
    LogConcat(a, [c], data);
    assert [c][..0] == [];
  }

  /**
   * Exactly the open clients are attempted, each with the same data, and
   * an error line appears exactly when some open client's send throws.
   */
  lemma {:induction false} LogMentions(cs: seq<ClientView>, data: string, d: string)
    ensures Broadcasting(d) in Log(cs, data) <==> d == data && exists c :: c in cs && c.readyState == Open
    ensures SendError in Log(cs, data) <==> exists c :: c in cs && c.readyState == Open && c.failing
    ensures forall e :: EventError(e) !in Log(cs, data)
    decreases |cs|
  {
    if cs != [] {
      var init, last := cs[..|cs| - 1], cs[|cs| - 1];
      LogMentions(init, data, d);
      assert cs == init + [last];
      assert forall c :: c in cs <==> c in init || c == last;
    }
  }

  /** How many of the lines are send attempts. */
  function Attempts(log: seq<LogLine>): nat
    decreases |log|
  {
    if log == [] then 0 else Attempts(log[..|log| - 1]) + if log[|log| - 1].Broadcasting? then 1 else 0
  }

  /** How many of the clients are open. */
  function OpenClients(cs: seq<ClientView>): nat
    decreases |cs|
  {
    if cs == [] then 0 else OpenClients(cs[..|cs| - 1]) + if cs[|cs| - 1].readyState == Open then 1 else 0
  }

  lemma {:induction false} AttemptsConcat(a: seq<LogLine>, b: seq<LogLine>)
    ensures Attempts(a + b) == Attempts(a) + Attempts(b)
    decreases |b|
  {
    if b == [] {
      assert a + b == a;
    } else {
      assert (a + b)[..|a + b| - 1] == a + b[..|b| - 1];
      AttemptsConcat(a, b[..|b| - 1]);
    }
  }

  /**
   * Every open client is attempted once and no other client is: the send
   * lines of a broadcast are as many as the open clients.
   */
  lemma {:induction false} AttemptsAreOpenClients(cs: seq<ClientView>, data: string)
    ensures Attempts(Log(cs, data)) == OpenClients(cs)
    decreases |cs|
  {
    if cs != [] {
      var init, last := cs[..|cs| - 1], cs[|cs| - 1];
      AttemptsAreOpenClients(init, data);
      AttemptsConcat(Log(init, data), LinesFor(last, data));
      if last.readyState == Open {
        AttemptsConcat([Broadcasting(data)], if last.failing then [SendError] else []);
        assert [Broadcasting(data)][..0] == [];
      }
    }
  }

  /** The serialised record: `IotMessage`, `Timestamp`, `DeviceID`. */
  datatype Envelope<M, T, D> = Envelope(iotMessage: M, timestamp: T, deviceId: D)

  /**
   * The envelope as line 57 builds it: `timestamp || Date.now().toISOString()`.
   * The source tests truthiness, not presence: `None` stands for every
   * falsy timestamp (undefined, null, 0, "", NaN), and each of them
   * reaches the fallback, which throws. `Some` holds a truthy one.
   */
  function EnvelopeAsWritten<M, T, D>(msg: M, timestamp: Option<T>, deviceId: D): (r: Result<Envelope<M, T, D>, Thrown>)
    ensures r.Failure? <==> timestamp.None?
    ensures r.Success? ==> r.value.iotMessage == msg && r.value.deviceId == deviceId && Some(r.value.timestamp) == timestamp
  {
    match timestamp
    case Some(t) => Success(Envelope(msg, t, deviceId))
    case None => Failure(NotAFunction)
  }

  /** The envelope with the fallback the line evidently means: the current time, as an ISO string. */
  function EnvelopeWithFallback<M, T, D>(msg: M, timestamp: Option<T>, deviceId: D, now: T): (e: Envelope<M, T, D>)
    ensures e.iotMessage == msg && e.deviceId == deviceId
    ensures e.timestamp == if timestamp.Some? then timestamp.value else now
  {
    Envelope(msg, match timestamp case Some(t) => t case None => now, deviceId)
  }

  /** The console lines of one event callback, as written. */
  function EventLog<M, T, D>(
    cs: seq<ClientView>, stringify: Envelope<M, T, D> -> string, msg: M, timestamp: Option<T>, deviceId: D): seq<LogLine>
  {
    match EnvelopeAsWritten(msg, timestamp, deviceId)
    case Failure(e) => [EventError(e)]
    case Success(env) => Log(cs, stringify(env))
  }

  /** The event callback of `startReadingMessages`, as written. */
  method OnEvent<M, T, D>(
    clients: seq<Socket>, stringify: Envelope<M, T, D> -> string, msg: M, timestamp: Option<T>, deviceId: D)
    returns (log: seq<LogLine>)
    requires forall i, j :: 0 <= i < j < |clients| ==> clients[i] != clients[j]
    modifies set c | c in clients
    ensures Views(clients) == old(Views(clients))
    ensures log == EventLog(Views(clients), stringify, msg, timestamp, deviceId)
    ensures forall i :: 0 <= i < |clients| ==>
      clients[i].sent == old(clients[i].sent) +
        match EnvelopeAsWritten(msg, timestamp, deviceId)
        case Success(env) => Delivered(clients[i].View(), stringify(env))
        case Failure(_) => []
  {
    var r := EnvelopeAsWritten(msg, timestamp, deviceId);
    if r.Failure? {
      log := [EventError(r.error)];
      return;
    }
    log := Broadcast(clients, stringify(r.value));
  }

  /** The event callback with the corrected fallback: every event is broadcast. */
  method OnEventCorrected<M, T, D>(
    clients: seq<Socket>, stringify: Envelope<M, T, D> -> string, msg: M, timestamp: Option<T>, deviceId: D, now: T)
    returns (log: seq<LogLine>)
    requires forall i, j :: 0 <= i < j < |clients| ==> clients[i] != clients[j]
    modifies set c | c in clients
    ensures Views(clients) == old(Views(clients))
    ensures log == Log(Views(clients), stringify(EnvelopeWithFallback(msg, timestamp, deviceId, now)))
    ensures forall i :: 0 <= i < |clients| ==>
      clients[i].sent == old(clients[i].sent) +
        Delivered(clients[i].View(), stringify(EnvelopeWithFallback(msg, timestamp, deviceId, now)))
  {
    log := Broadcast(clients, stringify(EnvelopeWithFallback(msg, timestamp, deviceId, now)));
  }

  /**
   * As written, an event without a timestamp is never broadcast: the
   * callback logs one error and no client is attempted, whatever clients
   * are connected.
   */
  lemma UntimedEventDropped<M, T, D>(
    cs: seq<ClientView>, stringify: Envelope<M, T, D> -> string, msg: M, deviceId: D)
    ensures EventLog(cs, stringify, msg, None, deviceId) == [EventError(NotAFunction)]
    ensures forall d :: Broadcasting(d) !in EventLog(cs, stringify, msg, None, deviceId)
  {
  }

  /**
   * The corrected callback agrees with the one as written whenever a
   * timestamp is present, and otherwise broadcasts the envelope stamped
   * with the current time: every open client is attempted, for every event.
   */
  lemma FallbackAgrees<M, T, D>(
    cs: seq<ClientView>, stringify: Envelope<M, T, D> -> string, msg: M, timestamp: Option<T>, deviceId: D, now: T)
    ensures timestamp.Some? ==>
      EventLog(cs, stringify, msg, timestamp, deviceId) == Log(cs, stringify(EnvelopeWithFallback(msg, timestamp, deviceId, now)))
    ensures Broadcasting(stringify(EnvelopeWithFallback(msg, timestamp, deviceId, now)))
        in Log(cs, stringify(EnvelopeWithFallback(msg, timestamp, deviceId, now)))
      <==> exists c :: c in cs && c.readyState == Open
  {
    var data := stringify(EnvelopeWithFallback(msg, timestamp, deviceId, now));
    LogMentions(cs, data, data);
  }
}
