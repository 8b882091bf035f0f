/// The `Oxtel` connection object of `oxtel.go`, run one step at a time.
/// The socket is represented by what it does: `Connect` is told whether
/// dialling succeeded, a write is told how it ended, and the receive side is
/// given the frames that arrive. The two channels become a flag (closed or
/// not) and the list of events an application listening on `Unsolicited`
/// received.
module Client {
  import opened GoInts
  import opened Errors
  import opened OxtelTypes
  import opened Transport
  import GoStrings

  /** How `conn.Write` ended. */
  datatype WriteOutcome = Written | WriteEof | WriteFailed

  /** What one routed frame publishes on `Unsolicited`: its event when it
    * was classified as a tally, nothing when it is a response or malformed. */
  function Event(routed: Routed): seq<Unsolicited>
  {
    if routed.Tally? then [routed.event] else []
  }

  /** The events a run of routed frames publishes, in order. */
  function Tallies(routes: seq<Routed>): seq<Unsolicited>
  {
    if routes == [] then [] else Tallies(routes[..|routes| - 1]) + Event(routes[|routes| - 1])
  }

  lemma TalliesSnoc(routes: seq<Routed>, i: nat)
    requires i < |routes|
    ensures Tallies(routes[..i + 1]) == Tallies(routes[..i]) + Event(routes[i])
  {
    assert routes[..i + 1][..i] == routes[..i];
  }

  /** Each frame routed against the same last command. */
  function Routes(lastCommand: string, frames: seq<string>): (routes: seq<Routed>)
    ensures |routes| == |frames|
    ensures forall j :: 0 <= j < |frames| ==> routes[j] == Route(lastCommand, frames[j])
  {
    seq(|frames|, j requires 0 <= j < |frames| => Route(lastCommand, frames[j]))
  }

  /** The events the frames `frames` publish while `lastCommand` is the last
    * command sent. */
  function Published(lastCommand: string, frames: seq<string>): seq<Unsolicited>
  {
    Tallies(Routes(lastCommand, frames))
  }

  /** The events of the first `n` frames. */
  lemma PublishedPrefix(lastCommand: string, frames: seq<string>, n: nat)
    requires n <= |frames|
    ensures Published(lastCommand, frames[..n]) == Tallies(Routes(lastCommand, frames)[..n])
  {
    assert Routes(lastCommand, frames[..n]) == Routes(lastCommand, frames)[..n];
  }

  /** A tally among the routed frames is among the events published. */
  lemma {:induction false} TalliesContain(routes: seq<Routed>, k: nat)
    requires k < |routes| && routes[k].Tally?
    ensures routes[k].event in Tallies(routes)
  {
    var n := |routes| - 1;
    if k < n {
      assert routes[..n][k] == routes[k];
      TalliesContain(routes[..n], k);
    }
  }

  /** With no command outstanding, only frames that classify as tallies
    * publish anything, and a tally frame always publishes its event. */
  lemma PublishedTallies(frames: seq<string>, k: nat)
    requires k < |frames| && Classify(frames[k]).Ok?
    ensures Classify(frames[k]).value in Published("", frames)
  {
    TalliesContain(Routes("", frames), k);
  }

  /** Whether the receive loop, with nobody waiting, stops at `frame`: a
    * response frame has no taker, and once the channels are closed a send on
    * either of them panics, so a tally stops the loop too. */
  predicate Stops(lastCommand: string, closed: bool, frame: string)
  {
    var routed := Route(lastCommand, frame);
    routed.Response? || (closed && routed.Tally?)
  }

  /** The index of the first frame the loop stops at, or the number of
    * frames when it stops at none. */
  function StopAt(lastCommand: string, closed: bool, frames: seq<string>): (n: nat)
    ensures n <= |frames|
    ensures forall j :: 0 <= j < n ==> !Stops(lastCommand, closed, frames[j])
    ensures n < |frames| ==> Stops(lastCommand, closed, frames[n])
  {
    if frames == [] then 0
    else if Stops(lastCommand, closed, frames[0]) then 0
    else
      var n := StopAt(lastCommand, closed, frames[1..]);
      assert forall j :: 1 <= j < n + 1 ==> frames[j] == frames[1..][j - 1];
      n + 1
  }

  /** While the channels are open the loop stops exactly at the first
    * response frame. */
  lemma {:induction false} StopAtOpen(lastCommand: string, frames: seq<string>)
    ensures StopAt(lastCommand, false, frames) == FirstResponse(lastCommand, frames)
  {
    if frames != [] && !Responds(lastCommand, frames[0]) {
      StopAtOpen(lastCommand, frames[1..]);
    }
  }

  lemma {:induction false} NoTallies(routes: seq<Routed>)
    requires forall j :: 0 <= j < |routes| ==> !routes[j].Tally?
    ensures Tallies(routes) == []
  {
    if routes != [] {
      NoTallies(routes[..|routes| - 1]);
    }
  }

  /** Once the channels are closed the loop publishes nothing: the first
    * tally or response frame makes it panic. */
  lemma ClosedPublishesNothing(lastCommand: string, frames: seq<string>)
    ensures Published(lastCommand, frames[..StopAt(lastCommand, true, frames)]) == []
  {
    var n := StopAt(lastCommand, true, frames);
    var routes := Routes(lastCommand, frames[..n]);
    assert forall j :: 0 <= j < |routes| ==> routes[j] == Route(lastCommand, frames[j]) && !Stops(lastCommand, true, frames[j]);
    NoTallies(routes);
  }

  /** How a wait ends: its result, how many of the queued frames the receive
    * loop routed while the caller waited (the ones that may publish), and
    * how many it used up, the response included. */
  datatype Waited = Waited(result: Result<string>, routed: nat, used: nat)

  /** The wait over the frames `queue`, all routed against `cmd`. */
  function Awaited(cmd: string, queue: seq<string>): (w: Waited)
    ensures w.routed == FirstResponse(cmd, queue) && w.routed <= w.used <= |queue|
  {
    var n := FirstResponse(cmd, queue);
    Waited(AwaitResponse(cmd, queue), n, if n < |queue| then n + 1 else n)
  }

  /** What a caller of `sendCommandExpectResponse` receives. A frame `held`
    * by the stuck receive loop is the first thing it receives, whatever it
    * answers: it is returned when it starts with `cmd`, makes the prefix
    * slice panic when it is shorter than `cmd`, and is dropped otherwise,
    * after which the wait goes on over `queue`. */
  function WaitOutcome(cmd: string, held: Option<string>, queue: seq<string>): (w: Waited)
    ensures w.routed <= w.used <= |queue|
    ensures held.Some? && StartsWith(held.value, cmd) ==> w == Waited(Body(cmd, held.value), 0, 0)
    ensures held.Some? && |held.value| < |cmd| ==> w == Waited(Err(IndexOutOfRange), 0, 0)
    ensures (held.Some? && |cmd| <= |held.value| && !StartsWith(held.value, cmd)) || held.None? ==> w == Awaited(cmd, queue)
  {
    match held
    case Some(h) =>
      if |h| < |cmd| then Waited(Err(IndexOutOfRange), 0, 0)
      else if h[..|cmd|] == cmd then Waited(Body(cmd, h), 0, 0)
      else Awaited(cmd, queue)
    case None => Awaited(cmd, queue)
  }

  /** What the receive loop does with frames that arrive while nobody is
    * waiting: the events it publishes, the response frame it ends up stuck
    * on (with the frames behind it), and whether it panicked. */
  datatype Dispatched = Dispatched(events: seq<Unsolicited>, held: Option<string>, unread: seq<string>, panics: bool)

  function Dispatching(lastCommand: string, closed: bool, frames: seq<string>, listening: bool): (d: Dispatched)
    ensures d.held.None? ==> d.unread == []
    ensures d.held.Some? ==> !closed && !d.panics
  {
    var stop := StopAt(lastCommand, closed, frames);
    Dispatched(if listening then Published(lastCommand, frames[..stop]) else [],
               if stop < |frames| && !closed then Some(frames[stop]) else None,
               if stop < |frames| && !closed then frames[stop + 1..] else [],
               stop < |frames| && closed)
  }

  /** With the channels closed the loop publishes nothing and holds
    * nothing, and it panics exactly when some frame routes as a tally or a
    * response. */
  lemma DispatchingClosed(lastCommand: string, frames: seq<string>, listening: bool)
    ensures var d := Dispatching(lastCommand, true, frames, listening);
            && d.events == [] && d.held == None
            && (d.panics <==> exists j :: 0 <= j < |frames| && Stops(lastCommand, true, frames[j]))
  {
    ClosedPublishesNothing(lastCommand, frames);
  }

  /** With the channels open the loop never panics; it is stuck exactly when
    * some frame responds to the last command, on the first such frame, with
    * the frames after it unread; when it is not stuck every tally of the
    * frames reached a ready listener. */
  lemma DispatchingOpen(lastCommand: string, frames: seq<string>, listening: bool)
    ensures var d := Dispatching(lastCommand, false, frames, listening);
            && !d.panics
            && (d.held.None? <==> forall j :: 0 <= j < |frames| ==> !Responds(lastCommand, frames[j]))
            && (d.held.Some? ==>
                  var n := |frames| - |d.unread| - 1;
                  && 0 <= n && Responds(lastCommand, d.held.value) && d.held.value == frames[n]
                  && d.unread == frames[n + 1..]
                  && forall j :: 0 <= j < n ==> !Responds(lastCommand, frames[j]))
            && (d.held.None? ==> d.events == (if listening then Published(lastCommand, frames) else []))
  {
    StopAtOpen(lastCommand, frames);
    var stop := StopAt(lastCommand, false, frames);
    assert stop == |frames| ==> frames[..stop] == frames;
  }

  class Oxtel {
    var address: string
    var port: uint16
    /** The open socket, by number; `None` is Go's nil `conn`. */
    var conn: Option<nat>
    /** The command whose response the client last waited for. */
    var lastCommand: string
    /** Whether `cancelFunc` is set. */
    var hasCancel: bool
    /** Whether `closeOnce` has run its function. */
    var closeOnceDone: bool
    /** How many times `cancelFunc` was called. */
    var cancelCalls: nat
    /** Whether `rxMessages` and `Unsolicited` are closed. */
    var channelsClosed: bool
    /** The sockets closed so far, in order. */
    var closedSockets: seq<nat>
    /** The frames written to the socket, in order. */
    var wire: seq<string>
    /** The events a listener on `Unsolicited` received, in order. */
    var delivered: seq<Unsolicited>
    /** The response frame the receive loop is stuck handing over on
      * `rxMessages`, when no caller was waiting for it. */
    var held: Option<string>
    /** The frames that arrived while the loop was stuck, not yet read. */
    var unread: seq<string>
    /** Whether a send on a closed channel made the receive loop panic. */
    var crashed: bool

    /** The shutdown bookkeeping: `closeOnce` runs at most once, and with it
      * the cancel call, the channel close and the socket close. Frames wait
      * unread only behind a held frame, and a held frame waits on an open
      * channel. */
    predicate Valid()
      reads this`channelsClosed, this`closeOnceDone, this`cancelCalls, this`closedSockets, this`held, this`unread
    {
      && (channelsClosed <==> closeOnceDone)
      && cancelCalls <= 1 && |closedSockets| <= 1
      && (closedSockets != [] <==> closeOnceDone)
      && (cancelCalls == 1 ==> closeOnceDone)
      && (held.None? ==> unread == [])
      && (held.Some? ==> !channelsClosed)
    }

    /** `NewOxtel`: not connected, nothing sent. */
    constructor (address: string, port: uint16)
      ensures Valid()
      ensures this.address == address && this.port == port
      ensures conn == None && lastCommand == "" && !hasCancel && !closeOnceDone
      ensures cancelCalls == 0 && !channelsClosed && closedSockets == [] && wire == [] && delivered == []
      ensures held == None && unread == [] && !crashed
    {
      this.address := address;
      this.port := port;
      conn := None;
      lastCommand := "";
      hasCancel := false;
      closeOnceDone := false;
      cancelCalls := 0;
      channelsClosed := false;
      closedSockets := [];
      wire := [];
      delivered := [];
      held := None;
      unread := [];
      crashed := false;
    }

    /** `Connect`: on a successful dial the socket becomes `conn` and a
      * cancellable context is set up; `closeOnce` is left as it was, and so
      * are the channels, which `NewOxtel` made once. */
    method Connect(dialOk: bool, socket: nat) returns (r: Result<()>)
      requires Valid()
      modifies this
      ensures Valid()
      ensures r.Ok? <==> dialOk
      ensures r.Err? ==> r.error == DialError
      ensures dialOk ==> conn == Some(socket) && hasCancel
      ensures !dialOk ==> conn == old(conn) && hasCancel == old(hasCancel)
      ensures closeOnceDone == old(closeOnceDone) && channelsClosed == old(channelsClosed)
      ensures cancelCalls == old(cancelCalls) && closedSockets == old(closedSockets)
      ensures lastCommand == old(lastCommand) && wire == old(wire) && delivered == old(delivered)
      ensures held == old(held) && unread == old(unread) && crashed == old(crashed)
      ensures address == old(address) && port == old(port)
    {
      if !dialOk {
        return Err(DialError);
      }
      conn := Some(socket);
      hasCancel := true;
      r := Ok(());
    }

    /** `Disconnect`: nothing when not connected; otherwise the first call
      * ever cancels the context, closes both channels and closes the socket,
      * and every call leaves `conn` nil. Because `closeOnce` is never reset,
      * a socket opened by a later `Connect` is never closed. Closing
      * `rxMessages` under a receive loop stuck sending on it makes the loop
      * panic. */
    method Disconnect()
      requires Valid()
      modifies this
      ensures Valid()
      ensures old(conn) == None ==> conn == None && closeOnceDone == old(closeOnceDone)
                                    && cancelCalls == old(cancelCalls) && closedSockets == old(closedSockets)
      ensures old(conn) != None ==> conn == None && closeOnceDone
      ensures old(conn) != None && !old(closeOnceDone) ==>
                closedSockets == [old(conn).value] && cancelCalls == (if hasCancel then 1 else 0)
                && held == None && unread == [] && crashed == (old(crashed) || old(held).Some?)
      ensures old(conn) == None || old(closeOnceDone) ==>
                held == old(held) && unread == old(unread) && crashed == old(crashed)
      ensures old(closeOnceDone) ==> closedSockets == old(closedSockets) && cancelCalls == old(cancelCalls)
      ensures channelsClosed == closeOnceDone
      ensures hasCancel == old(hasCancel) && lastCommand == old(lastCommand) && wire == old(wire)
      ensures delivered == old(delivered) && address == old(address) && port == old(port)
    {
      if conn == None {
        return;
      }
      if !closeOnceDone {
        closeOnceDone := true;
        if hasCancel {
          cancelCalls := cancelCalls + 1;
        }
        channelsClosed := true;
        if held.Some? {
          crashed := true;
        }
        held := None;
        unread := [];
        closedSockets := closedSockets + [conn.value];
      }
      conn := None;
    }

    /** `sendCommand`: writes the escaped, terminated frame. Writing on a nil
      * `conn` panics; a write that ends in `io.EOF` disconnects. */
    method SendCommand(cmd: string, outcome: WriteOutcome) returns (r: Result<()>)
      requires Valid()
      modifies this
      ensures Valid()
      ensures old(conn) == None ==> r == Err(NilDereference) && wire == old(wire) && conn == old(conn)
      ensures old(conn) != None ==> match outcome
        case Written => r == Ok(()) && wire == old(wire) + [Frame(cmd)] && conn == old(conn)
        case WriteEof => r == Err(WriteError(true)) && wire == old(wire) && conn == None
        case WriteFailed => r == Err(WriteError(false)) && wire == old(wire) && conn == old(conn)
      ensures old(conn) != None && outcome == WriteEof && !old(closeOnceDone) ==>
                closedSockets == [old(conn).value] && held == None && unread == []
                && crashed == (old(crashed) || old(held).Some?)
      ensures outcome != WriteEof || old(conn) == None || old(closeOnceDone) ==>
                closedSockets == old(closedSockets) && cancelCalls == old(cancelCalls)
                && held == old(held) && unread == old(unread) && crashed == old(crashed)
      ensures outcome != WriteEof || old(conn) == None ==> closeOnceDone == old(closeOnceDone)
      ensures old(conn) != None && outcome == WriteEof ==> closeOnceDone
      ensures channelsClosed == closeOnceDone
      ensures lastCommand == old(lastCommand) && delivered == old(delivered)
      ensures hasCancel == old(hasCancel) && address == old(address) && port == old(port)
    {
      if conn == None {
        return Err(NilDereference);
      }
      match outcome {
        case Written =>
          wire := wire + [Frame(cmd)];
          r := Ok(());
        case WriteEof =>
          Disconnect();
          r := Err(WriteError(true));
        case WriteFailed =>
          r := Err(WriteError(false));
      }
    }

    /** `sendCommandExpectResponse`: records `cmd` as the last command, sends
      * `cmd + data`, and then waits while the frames `inbound` arrive before
      * the timeout. A frame held by the stuck receive loop is received first
      * (`WaitOutcome`); the loop then resumes and routes the frames that
      * waited unread and then `inbound` against `cmd`: tallies reach a
      * listener (when one is ready), and the first frame that starts with
      * `cmd` ends the wait with its body. The frames after the one that ended
      * the wait are routed with nobody waiting (`Dispatch`). Once the
      * channels are closed a receive yields the empty string, whose prefix
      * slice panics. */
    method SendCommandExpectResponse(cmd: string, data: string, outcome: WriteOutcome, inbound: seq<string>, listening: bool)
      returns (r: Result<string>)
      requires Valid()
      modifies this
      ensures Valid()
      ensures lastCommand == cmd
      ensures old(conn) == None ==> r == Err(NilDereference)
      ensures old(conn) != None && outcome == WriteFailed ==> r == Err(WriteError(false))
      ensures old(conn) == None || outcome == WriteFailed ==>
                delivered == old(delivered) && held == old(held) && unread == old(unread) && crashed == old(crashed)
      ensures old(conn) != None && outcome != WriteFailed && channelsClosed ==>
                r == Err(IndexOutOfRange) && delivered == old(delivered)
                && held == None && unread == [] && crashed == (old(crashed) || old(held).Some?)
      ensures old(conn) != None && outcome != WriteFailed && !channelsClosed ==>
                var queue := old(unread) + inbound;
                var w := WaitOutcome(cmd, old(held), queue);
                var d := Dispatching(cmd, false, queue[w.used..], listening);
                && r == w.result
                && delivered == old(delivered) + (if listening then Published(cmd, queue[..w.routed]) else []) + d.events
                && held == d.held && unread == d.unread && crashed == old(crashed)
      ensures old(conn) != None && outcome == Written ==> wire == old(wire) + [Frame(cmd + data)]
      ensures outcome != WriteEof || old(conn) == None ==> closeOnceDone == old(closeOnceDone) && conn == old(conn)
      ensures old(conn) != None && outcome == WriteEof ==> conn == None && closeOnceDone
    {
      lastCommand := cmd;
      var sent := SendCommand(cmd + data, outcome);
      if sent.Err? && sent.error != WriteError(true) {
        return Err(sent.error);
      }
      if channelsClosed {
        return Err(IndexOutOfRange);
      }
      var queue := unread + inbound;
      var first := held;
      held := None;
      unread := [];
      r := Receive(cmd, first, queue, listening);
    }

    /** The receiving half of `sendCommandExpectResponse` with the channels
      * open: the wait described by `WaitOutcome`, then the frames after the
      * one that ended it, routed with nobody waiting. */
    method Receive(cmd: string, first: Option<string>, queue: seq<string>, listening: bool) returns (r: Result<string>)
      requires held == None && unread == [] && lastCommand == cmd && !channelsClosed
      modifies this`held, this`unread, this`delivered, this`crashed
      ensures var w := WaitOutcome(cmd, first, queue);
              var d := Dispatching(cmd, false, queue[w.used..], listening);
              && r == w.result
              && delivered == old(delivered) + (if listening then Published(cmd, queue[..w.routed]) else []) + d.events
              && held == d.held && unread == d.unread && crashed == old(crashed)
    {
      var w := Wait(cmd, first, queue, listening);
      r := w.result;
      Dispatch(queue[w.used..], listening);
    }

    /** The wait itself: a held frame is received first, and decides the
      * outcome unless it is dropped; otherwise the queued frames are routed
      * until a response. */
    method Wait(cmd: string, first: Option<string>, queue: seq<string>, listening: bool) returns (w: Waited)
      modifies this`delivered
      ensures w == WaitOutcome(cmd, first, queue)
      ensures delivered == old(delivered) + (if listening then Published(cmd, queue[..w.routed]) else [])
    {
      if first.Some? && |first.value| < |cmd| {
        w := Waited(Err(IndexOutOfRange), 0, 0);
      } else if first.Some? && first.value[..|cmd|] == cmd {
        w := Waited(Body(cmd, first.value), 0, 0);
      } else {
        var res, used := Await(cmd, queue, listening);
        w := Waited(res, FirstResponse(cmd, queue), used);
      }
    }

    /** The wait of `sendCommandExpectResponse` once the loop routes frames:
      * frames are routed against `cmd` until one is a response, whose body
      * ends the wait; running out of frames is the timeout. `used` counts
      * the frames taken, the response included. */
    method Await(cmd: string, queue: seq<string>, listening: bool) returns (r: Result<string>, used: nat)
      modifies this`delivered
      ensures r == AwaitResponse(cmd, queue)
      ensures Waited(r, FirstResponse(cmd, queue), used) == Awaited(cmd, queue)
      ensures delivered == old(delivered)
                + (if listening then Published(cmd, queue[..FirstResponse(cmd, queue)]) else [])
    {
      AwaitResponseFirst(cmd, queue);
      StopAtOpen(cmd, queue);
      var i := DeliverUntilStop(cmd, false, queue, listening);
      if i < |queue| {
        r := Body(cmd, queue[i]);
        used := i + 1;
      } else {
        r := Err(TimeoutError);
        used := i;
      }
    }

    /** Routes frames against `lastCommand` until the loop stops, delivering
      * the tallies before that frame; the result is the position of the
      * frame it stops at, or the number of frames when there is none. */
    method DeliverUntilStop(lastCommand: string, closed: bool, frames: seq<string>, listening: bool) returns (i: nat)
      modifies this`delivered
      ensures i == StopAt(lastCommand, closed, frames)
      ensures delivered == old(delivered) + (if listening then Published(lastCommand, frames[..i]) else [])
    {
      ghost var routes := Routes(lastCommand, frames);
      i := 0;
      while i < |frames|
        invariant i <= StopAt(lastCommand, closed, frames)
        invariant delivered == old(delivered) + (if listening then Tallies(routes[..i]) else [])
      {
        if Stops(lastCommand, closed, frames[i]) {
          PublishedPrefix(lastCommand, frames, i);
          return;
        }
        Deliver(Route(lastCommand, frames[i]), listening);
        TalliesSnoc(routes, i);
        i := i + 1;
      }
      PublishedPrefix(lastCommand, frames, i);
    }

    /** One frame that does not stop the loop: when it was classified as a
      * tally and a listener is ready, the listener receives its event. */
    method Deliver(routed: Routed, listening: bool)
      modifies this`delivered
      ensures delivered == old(delivered) + (if listening then Event(routed) else [])
    {
      if routed.Tally? && listening {
        delivered := delivered + [routed.event];
      }
    }

    /** `rxLoop` while no caller is waiting: the stream is cut into frames.
      * After a panic nothing runs; while the loop is stuck on a held frame
      * the frames wait unread; otherwise they go to `Dispatch`. */
    method RxLoop(stream: string, listening: bool)
      requires Valid()
      modifies this`held, this`unread, this`delivered, this`crashed
      ensures Valid()
      ensures old(crashed) ==> crashed && held == old(held) && unread == old(unread) && delivered == old(delivered)
      ensures !old(crashed) && old(held).Some? ==>
                !crashed && held == old(held) && unread == old(unread) + Frames(stream) && delivered == old(delivered)
      ensures !old(crashed) && old(held).None? ==>
                var d := Dispatching(lastCommand, channelsClosed, Frames(stream), listening);
                delivered == old(delivered) + d.events && held == d.held && unread == d.unread && crashed == d.panics
    {
      if crashed {
        return;
      }
      if held.Some? {
        unread := unread + Frames(stream);
        return;
      }
      Dispatch(Frames(stream), listening);
    }

    /** The body of `rxLoop` for frames that arrive while no caller is
      * waiting: each frame is routed against the last command. Tallies reach
      * a listener (when one is ready) and malformed frames are dropped. A
      * frame routed as a response is held: the loop is stuck sending it on
      * `rxMessages` until the next `sendCommandExpectResponse` receives it,
      * and the frames after it wait unread. Once the channels are closed,
      * the first tally or response panics instead. */
    method Dispatch(frames: seq<string>, listening: bool)
      requires held == None && unread == []
      modifies this`held, this`unread, this`delivered, this`crashed
      ensures var d := Dispatching(lastCommand, channelsClosed, frames, listening);
              delivered == old(delivered) + d.events && held == d.held && unread == d.unread
              && crashed == (old(crashed) || d.panics)
    {
      var i := DeliverUntilStop(lastCommand, channelsClosed, frames, listening);
      if i < |frames| {
        if channelsClosed {
          crashed := true;
        } else {
          held := Some(frames[i]);
          unread := frames[i + 1..];
        }
      }
    }
  }

  /** Connecting, disconnecting, connecting again and disconnecting again
    * closes only the first socket: the second stays open. */
  method ReconnectLeavesSocketOpen(first: nat, second: nat) returns (client: Oxtel)
    ensures client.conn == None
    ensures client.closedSockets == [first]
  {
    client := new Oxtel("", 0);
    var r1 := client.Connect(true, first);
    client.Disconnect();
    var r2 := client.Connect(true, second);
    client.Disconnect();
  }

  /** The channels are made once and closed by the first disconnect, so
    * after a reconnect the first frame that classifies as a tally makes the
    * new receive loop panic, and no listener ever receives it. */
  method ReconnectThenTallyPanics(first: nat, second: nat, stream: string) returns (client: Oxtel)
    requires Frames(stream) != [] && Classify(Frames(stream)[0]).Ok?
    ensures client.crashed && client.delivered == []
  {
    client := new Oxtel("", 0);
    var r1 := client.Connect(true, first);
    client.Disconnect();
    var r2 := client.Connect(true, second);
    client.RxLoop(stream, true);
  }
  /** A request that no frame answers, with no frame held, times out and
    * leaves nothing held. */
  lemma NothingArrives(cmd: string)
    ensures WaitOutcome(cmd, None, []) == Waited(Err(TimeoutError), 0, 0)
    ensures Dispatching(cmd, false, [], false) == Dispatched([], None, [], false)
  {
  }

  /** A single line that starts with the last command is held, alone. */
  lemma HoldsResponse(lastCommand: string, line: string)
    requires IsLine(line) && GoStrings.TrimLeft(line) == line && StartsWith(line, lastCommand) && |lastCommand| > 0
    ensures Frames(line) == [line]
    ensures Dispatching(lastCommand, false, [line], false) == Dispatched([], Some(line), [], false)
  {
    FramesOfLines([line]);
    assert Concat([line]) == line;
  }

  /** A response `late` that arrives after its request timed out is kept by
    * the stuck receive loop, and the next request for the same command
    * receives it, stale, instead of the answer `next` that arrives for it;
    * `next` is then held in turn. */
  method StaleResponse(socket: nat, cmd: string, data: string, late: string, next: string)
    returns (client: Oxtel, r: Result<string>)
    requires |cmd| > 0 && StartsWith(late, cmd) && StartsWith(next, cmd)
    requires IsLine(late) && GoStrings.TrimLeft(late) == late
    ensures r == Body(cmd, late)
    ensures client.held == Some(next) && client.unread == []
  {
    client := TimedOutThenLate(socket, cmd, data, late);
    assert ([] + [next])[0..] == [next];
    assert Dispatching(cmd, false, [next], false).held == Some(next);
    r := client.SendCommandExpectResponse(cmd, data, Written, [next], false);
  }

  /** The first half of `StaleResponse`: the request times out, then its
    * response arrives and is held. */
  method TimedOutThenLate(socket: nat, cmd: string, data: string, late: string) returns (client: Oxtel)
    requires |cmd| > 0 && StartsWith(late, cmd)
    requires IsLine(late) && GoStrings.TrimLeft(late) == late
    ensures fresh(client) && client.Valid() && client.conn == Some(socket) && client.lastCommand == cmd
    ensures client.held == Some(late) && client.unread == [] && !client.crashed && !client.channelsClosed
  {
    client := TimedOut(socket, cmd, data);
    HoldsResponse(cmd, late);
    client.RxLoop(late, false);
  }

  /** A connected client whose request for `cmd` received no frame. */
  method TimedOut(socket: nat, cmd: string, data: string) returns (client: Oxtel)
    ensures fresh(client) && client.Valid() && client.conn == Some(socket) && client.lastCommand == cmd
    ensures client.held == None && client.unread == [] && !client.crashed && !client.channelsClosed
  {
    client := new Oxtel("", 0);
    var c := client.Connect(true, socket);
    NothingArrives(cmd);
    var r := client.SendCommandExpectResponse(cmd, data, Written, [], false);
  }
}
