/**
 * What `background_thread` in server/server.py emits, as a function of the
 * toggle value it starts from and of what happens in each pass of its
 * `while running` loop.
 *
 * Each pass is described by an `Iteration`: the number `random.random()`
 * returned, whether `socketio.emit` raised, and whether the termination
 * signal handler ran while the pass was sleeping. That is the one
 * interleaving with other threads that this model takes into account.
 */
module BroadcastLoop {
  import opened Wire

  datatype Iteration = Iteration(randomNumber: real, emitRaises: bool, signalled: bool)

  /** The periodic broadcast carrying `randomNumber` and the toggle value `b`. */
  function TickMessage(randomNumber: real, b: bool): Emit
  {
    Emit(MessageEvent, Data(randomNumber, b), Broadcast)
  }

  /** `b` after `n` flips. */
  function Flip(b: bool, n: nat): bool
  {
    if n % 2 == 0 then b else !b
  }

  /** One more flip negates. */
  lemma FlipStep(b: bool, n: nat)
    ensures Flip(b, n + 1) == !Flip(b, n)
  {
  }

  /** What one pass sends: nothing if its emit raised, else one broadcast of `b`. */
  function Sent(b: bool, it: Iteration): (sent: seq<Emit>)
    ensures |sent| == if it.emitRaises then 0 else 1
  {
    if it.emitRaises then [] else [TickMessage(it.randomNumber, b)]
  }

  /**
   * The broadcasts of the loop entered with `running` set and toggle value
   * `b`: a pass whose emit raises sends nothing and keeps the toggle; any
   * other pass sends the toggle value and then negates it; the loop ends
   * after the pass during which the signal arrived.
   */
  function Broadcasts(b: bool, its: seq<Iteration>): seq<Emit>
    decreases |its|
  {
    if its == [] then []
    else if its[0].signalled then Sent(b, its[0])
    else Sent(b, its[0]) + Broadcasts(Flip(b, |Sent(b, its[0])|), its[1..])
  }

  /** No signal arrived during the first `n` passes. */
  predicate Quiet(its: seq<Iteration>, n: nat)
    requires n <= |its|
  {
    forall k :: 0 <= k < n ==> !its[k].signalled
  }

  /** The passes so far were quiet exactly when the earlier ones were and this one is. */
  lemma QuietStep(its: seq<Iteration>, n: nat)
    requires n < |its|
    ensures Quiet(its, n + 1) == (Quiet(its, n) && !its[n].signalled)
  {
  }

  /** The random numbers of the passes whose emit went through. */
  function SentRandoms(its: seq<Iteration>): seq<real>
    decreases |its|
  {
    if its == [] then []
    else (if its[0].emitRaises then [] else [its[0].randomNumber]) + SentRandoms(its[1..])
  }

  /**
   * Every broadcast is a `message` to all clients, and the booleans
   * strictly alternate starting from the value the loop was entered with.
   */
  lemma {:induction false} BroadcastsAlternate(b: bool, its: seq<Iteration>)
    ensures |Broadcasts(b, its)| <= |its|
    ensures forall j :: 0 <= j < |Broadcasts(b, its)| ==>
              Broadcasts(b, its)[j].event == MessageEvent
              && Broadcasts(b, its)[j].scope == Broadcast
              && Broadcasts(b, its)[j].payload.Data?
              && Broadcasts(b, its)[j].payload.boolean == Flip(b, j)
    decreases |its|
  {
    if its != [] {
      var it := its[0];
      var next := Flip(b, |Sent(b, it)|);
      var msgs := Broadcasts(b, its);
      if it.signalled {
        assert msgs == Sent(b, it);
      } else if it.emitRaises {
        BroadcastsAlternate(next, its[1..]);
        assert msgs == Broadcasts(b, its[1..]);
      } else {
        BroadcastsAlternate(next, its[1..]);
        var rest := Broadcasts(next, its[1..]);
        assert msgs == [TickMessage(it.randomNumber, b)] + rest;
        forall j | 1 <= j < |msgs|
          ensures msgs[j].event == MessageEvent && msgs[j].scope == Broadcast
          ensures msgs[j].payload.Data? && msgs[j].payload.boolean == Flip(b, j)
        {
          assert msgs[j] == rest[j - 1];
          FlipStep(b, j - 1);
        }
      }
    }
  }

  /** Once the signal has arrived, no later pass emits anything. */
  lemma {:induction false} BroadcastsStopAtSignal(b: bool, its: seq<Iteration>, k: nat)
    requires k < |its| && its[k].signalled
    ensures Broadcasts(b, its) == Broadcasts(b, its[..k + 1])
    decreases k
  {
    var it := its[0];
    var next := Flip(b, |Sent(b, it)|);
    assert its[..k + 1][0] == it;
    if k > 0 {
      BroadcastsStopAtSignal(next, its[1..], k - 1);
      assert its[..k + 1][1..] == its[1..][..k];
    }
  }

  /** Flipping `m` times after `n` flips is flipping `n + m` times. */
  lemma FlipAdd(b: bool, n: nat, m: nat)
    ensures Flip(Flip(b, n), m) == Flip(b, n + m)
  {
  }

  /**
   * Running one more pass after a quiet schedule appends what that pass
   * sends, with the toggle value left by the broadcasts so far.
   */
  lemma {:induction false} BroadcastsSnoc(b: bool, its: seq<Iteration>, it: Iteration)
    requires Quiet(its, |its|)
    ensures Broadcasts(b, its + [it]) == Broadcasts(b, its) + Sent(Flip(b, |Broadcasts(b, its)|), it)
    decreases |its|
  {
    if its == [] {
      assert its + [it] == [it];
    } else {
      var first := its[0];
      var next := Flip(b, |Sent(b, first)|);
      assert (its + [it])[0] == first;
      assert (its + [it])[1..] == its[1..] + [it];
      BroadcastsSnoc(next, its[1..], it);
      var rest := Broadcasts(next, its[1..]);
      FlipAdd(b, |Sent(b, first)|, |rest|);
    }
  }

  /**
   * Without a signal, the loop broadcasts the random number of every pass
   * whose emit went through, in order, and nothing else.
   */
  lemma {:induction false} BroadcastsCarrySentRandoms(b: bool, its: seq<Iteration>)
    requires Quiet(its, |its|)
    ensures |Broadcasts(b, its)| == |SentRandoms(its)|
    ensures forall j :: 0 <= j < |SentRandoms(its)| ==>
              Broadcasts(b, its)[j].payload.Data?
              && Broadcasts(b, its)[j].payload.randomNumber == SentRandoms(its)[j]
    decreases |its|
  {
    if its != [] {
      var it := its[0];
      var next := Flip(b, |Sent(b, it)|);
      BroadcastsCarrySentRandoms(next, its[1..]);
      if !it.emitRaises {
        var rest := Broadcasts(next, its[1..]);
        assert Broadcasts(b, its) == [TickMessage(it.randomNumber, b)] + rest;
        assert SentRandoms(its) == [it.randomNumber] + SentRandoms(its[1..]);
      }
    }
  }
}
