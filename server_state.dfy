/**
 * The module globals of server/server.py (`bool_state`, `running`,
 * `clients_connected`) as one object, and the handlers that update them in
 * place: connect, disconnect, the termination signal handler, and the
 * `while running` loop of the background task.
 *
 * Emits are returned to the caller instead of being handed to the
 * transport; `random.random()` results are parameters.
 */
module Server {
  import opened Wire
  import opened BroadcastLoop

  /** The `/health` report. */
  datatype HealthReport = HealthReport(status: string, clients: int, backgroundThread: bool, asyncMode: string)

  class ServerState {
    var boolState: bool
    var running: bool
    /** An event counter: no lower bound is enforced. */
    var clientsConnected: int

    /** Background tasks spawned by connect. */
    ghost var tasksStarted: nat
    /** Connect and disconnect events handled so far. */
    ghost var connects: nat
    ghost var disconnects: nat
    /** Termination signals handled so far. */
    ghost var signals: nat

    /**
     * The counter is connects minus disconnects (it is not the number of
     * open connections), and `running` is only ever set by a connect that
     * also spawned a task. Tasks are started only from a stopped state,
     * which only a signal restores after the first start: so at most one
     * task beyond the signals handled, and none beyond while stopped.
     */
    ghost predicate Valid()
      reads this
    {
      && clientsConnected == connects - disconnects
      && (running ==> tasksStarted >= 1)
      && tasksStarted <= connects
      && tasksStarted <= signals + (if running then 1 else 0)
    }

    /** The globals at import time. */
    constructor ()
      ensures Valid()
      ensures boolState && !running && clientsConnected == 0
      ensures tasksStarted == 0 && connects == 0 && disconnects == 0 && signals == 0
    {
      boolState := true;
      running := false;
      clientsConnected := 0;
      tasksStarted := 0;
      connects := 0;
      disconnects := 0;
      signals := 0;
    }

    /**
     * `handle_connect`: count the client, start the background task only if
     * none is running, and welcome the client with the current toggle value.
     */
    method HandleConnect(randomNumber: real) returns (welcome: Emit)
      requires Valid()
      modifies this
      ensures Valid()
      ensures clientsConnected == old(clientsConnected) + 1
      ensures running
      ensures tasksStarted == old(tasksStarted) + (if old(running) then 0 else 1)
      ensures boolState == old(boolState)
      ensures welcome.event == MessageEvent && welcome.scope == Sender
      ensures welcome.payload == Data(randomNumber, boolState)
      ensures connects == old(connects) + 1 && disconnects == old(disconnects)
      ensures signals == old(signals)
    {
      clientsConnected := clientsConnected + 1;
      connects := connects + 1;
      if !running {
        running := true;
        tasksStarted := tasksStarted + 1;
      }
      welcome := Emit(MessageEvent, Data(randomNumber, boolState), Sender);
    }

    /** `handle_disconnect`: only the counter changes; the loop keeps running. */
    method HandleDisconnect()
      requires Valid()
      modifies this`clientsConnected, this`disconnects
      ensures Valid()
      ensures clientsConnected == old(clientsConnected) - 1
      ensures disconnects == old(disconnects) + 1
    {
      clientsConnected := clientsConnected - 1;
      disconnects := disconnects + 1;
    }

    /** `signal_handler`: clear `running` (the process exit is not modelled). */
    method SignalHandler()
      requires Valid()
      modifies this`running, this`signals
      ensures Valid()
      ensures !running
      ensures signals == old(signals) + 1
    {
      running := false;
      signals := signals + 1;
    }

    /**
     * One pass of the background loop's body: broadcast the toggle value
     * and negate it, or, if the emit raised, send nothing and keep it.
     */
    method Tick(randomNumber: real, emitRaises: bool) returns (sent: seq<Emit>)
      requires Valid()
      modifies this`boolState
      ensures Valid()
      ensures emitRaises ==> sent == [] && boolState == old(boolState)
      ensures !emitRaises ==> sent == [TickMessage(randomNumber, old(boolState))]
                              && boolState == !old(boolState)
    {
      if emitRaises {
        sent := [];
      } else {
        sent := [TickMessage(randomNumber, boolState)];
        boolState := !boolState;
      }
    }

    /**
     * `background_thread`, run over the passes in `its` or until `running`
     * is false. A pass marked `signalled` has the signal handler run during
     * its sleep. Returns what was broadcast and the loop's `count`.
     */
    method BackgroundThread(its: seq<Iteration>) returns (emitted: seq<Emit>, count: nat)
      requires Valid()
      modifies this`boolState, this`running, this`signals
      ensures Valid()
      ensures emitted == if old(running) then Broadcasts(old(boolState), its) else []
      ensures count == |emitted|
      ensures boolState == Flip(old(boolState), count)
      ensures running == (old(running) && Quiet(its, |its|))
      ensures signals == old(signals) + (if old(running) && !running then 1 else 0)
    {
      ghost var b0 := boolState;
      ghost var wasRunning := running;
      emitted, count := [], 0;
      var i := 0;
      while running && i < |its|
        invariant Valid()
        invariant 0 <= i <= |its|
        invariant !wasRunning ==> i == 0 && !running && emitted == []
        invariant wasRunning && !running ==> 0 < i && its[i - 1].signalled
        invariant wasRunning ==> (running <==> Quiet(its, i))
        invariant wasRunning ==> emitted == Broadcasts(b0, its[..i])
        invariant count == |emitted|
        invariant boolState == Flip(b0, count)
        invariant signals == old(signals) + (if wasRunning && !running then 1 else 0)
      {
        var it := its[i];
        assert its[..i + 1] == its[..i] + [it];
        BroadcastsSnoc(b0, its[..i], it);
        FlipAdd(b0, count, |Sent(boolState, it)|);
        QuietStep(its, i);
        var sent := Tick(it.randomNumber, it.emitRaises);
        emitted := emitted + sent;
        count := count + |sent|;
        if it.signalled {
          SignalHandler();
        }
        i := i + 1;
      }
      if wasRunning {
        if running {
          assert its[..i] == its;
        } else {
          BroadcastsStopAtSignal(b0, its, i - 1);
        }
      }
    }

    /**
     * A client that connects and leaves: the counter is back to zero but the
     * background loop is still running, since disconnect never clears it.
     */
    static method LastDisconnectKeepsLoopRunning() returns (s: ServerState)
      ensures s.Valid() && s.running && s.clientsConnected == 0 && s.tasksStarted == 1
    {
      s := new ServerState();
      var _ := s.HandleConnect(0.5);
      s.HandleDisconnect();
    }

    /**
     * A reconnect after everyone left starts no second task, and its welcome
     * carries the toggle value the running loop has reached.
     */
    static method ReconnectStartsNoTask(r: real) returns (s: ServerState, welcome: Emit)
      ensures s.Valid() && s.running && s.clientsConnected == 1 && s.tasksStarted == 1
      ensures welcome.payload == Data(r, s.boolState) && !s.boolState
    {
      s := new ServerState();
      var _ := s.HandleConnect(0.5);
      var _ := s.Tick(0.25, false);
      s.HandleDisconnect();
      welcome := s.HandleConnect(r);
    }

    /** A disconnect with no connect before it drives the counter negative. */
    static method DisconnectFirstGoesNegative() returns (s: ServerState)
      ensures s.Valid() && s.clientsConnected == -1 && !s.running
    {
      s := new ServerState();
      s.HandleDisconnect();
    }

    /** The `/health` route: reads the counter and `running`, changes nothing. */
    function Health(): (r: HealthReport)
      reads this
      ensures r.status == "running" && r.asyncMode == "threading"
      ensures r.clients == clientsConnected && r.backgroundThread == running
    {
      HealthReport("running", clientsConnected, running, "threading")
    }
  }
}
