/**
 The polling transport as an object that is updated in place: what SetHandshake, Run and Stop leave behind
 when nobody interferes.  It agrees with the step functions, which say what happens when somebody does.
 */
module PollingObject {
  import opened GoInt
  import opened Frames
  import PT = PollingTransport

  /** Ten seconds. */
  const DEFAULT_PING: Int64 := 10_000_000_000

  /** A whole call of the polling transport's Stop: its steps, one after the other. */
  function StopFrom(p: PT.Transport, pc: PT.StopPc): PT.Transport
    decreases match pc
              case StopCas => 4
              case StopCancel => 3
              case StopBroadcast => 2
              case StopToken => 1
              case StopReturned => 0
  {
    if pc.StopReturned? then p else StopFrom(PT.StopStep(p, pc).0, PT.StopStep(p, pc).1)
  }

  /** A call of Stop on a transport that nobody has stopped notifies its loop; on any other it does nothing. */
  lemma StopNotifies(p: PT.Transport)
    ensures PT.Unstopped(p) && !p.stopped ==> PT.Notified(StopFrom(p, PT.StopCas))
    ensures p.stopped ==> StopFrom(p, PT.StopCas) == p
    ensures StopFrom(p, PT.StopCas).loop == p.loop && StopFrom(p, PT.StopCas).fed == p.fed
  {
  }

  class Poller {
    var sid: bool
    var handshakeDone: PT.Gate
    var stopped: bool
    var stopPolling: bool
    var stopChClosed: bool
    var stopOnceSpent: bool
    var reqCtxCancelled: bool
    var onClose: nat
    ghost var loop: PT.LoopPc
    ghost var fed: seq<Frame>
    ghost var closes: nat

    ghost function View(): PT.Transport
      reads this
    {
      PT.Transport(sid, handshakeDone, stopped, stopPolling, stopChClosed, stopOnceSpent, reqCtxCancelled,
                   onClose, loop, fed, closes)
    }

    /** stopCh is closed by the Once only. */
    ghost predicate Valid()
      reads this
    {
      stopChClosed == stopOnceSpent
    }

    constructor ()
      ensures Valid() && View() == PT.NEW
    {
      sid, handshakeDone, stopped, stopPolling := false, PT.NoGate, false, false;
      stopChClosed, stopOnceSpent, reqCtxCancelled, onClose := false, false, false, 0;
      loop, fed, closes := PT.NotRunning, [], 0;
    }

    method MarkHandshakeDone()
      requires Valid()
      modifies this`handshakeDone
      ensures Valid() && View() == PT.MarkHandshakeDone(old(View()))
    {
      if handshakeDone.NoGate? {
        return;
      }
      if !handshakeDone.GateOpen? {
        handshakeDone := PT.GateOpen;
      }
    }

    /** The session id is stored first; resetting the pinger may panic, and then the gate stays as it is. */
    method SetHandshake(interval: Int64) returns (panics: bool)
      requires Valid()
      modifies this`sid, this`handshakeDone
      ensures Valid() && (panics <==> TickerPanics(interval))
      ensures View() == if panics then old(View()).(sid := true) else PT.SetHandshake(old(View()))
      ensures sid && (handshakeDone.NoGate? <==> old(handshakeDone).NoGate?)
      ensures !handshakeDone.NoGate? && !panics ==> handshakeDone.GateOpen?
      ensures panics ==> handshakeDone == old(handshakeDone)
    {
      sid := true;
      var pingInterval := DEFAULT_PING;
      if interval != 0 {
        pingInterval := Nanos(interval);
      }
      if pingInterval <= 0 {
        return true;
      }
      MarkHandshakeDone();
      return false;
    }

    method Run(sid: bool, onClose: nat)
      requires Valid()
      modifies this
      ensures Valid() && View() == PT.Run(old(View()), sid, onClose)
      ensures this.sid == sid && this.onClose == onClose
      ensures handshakeDone == if sid then PT.GateOpen else PT.GateShut
      ensures !stopped && !stopPolling && !stopChClosed && !stopOnceSpent && !reqCtxCancelled
    {
      reqCtxCancelled := false;
      this.sid := sid;
      handshakeDone := PT.GateShut;
      if sid {
        MarkHandshakeDone();
      }
      this.onClose := onClose;
      stopped := false;
      stopPolling := false;
      stopChClosed := false;
      stopOnceSpent := false;
      loop, fed, closes := PT.AwaitGate, [], 0;
    }

    /** The assertion says that stopCh is not closed twice. */
    method Stop()
      requires Valid()
      modifies this`stopped, this`stopPolling, this`stopChClosed, this`stopOnceSpent, this`reqCtxCancelled
      ensures Valid() && View() == StopFrom(old(View()), PT.StopCas)
      ensures stopped && (!old(stopped) ==> stopPolling && stopChClosed && stopOnceSpent)
      ensures !old(stopped) && !old(stopOnceSpent) ==> reqCtxCancelled
    {
      StopNotifies(View());
      ghost var p := View();
      if stopped {
        return;
      }
      stopped := true;
      ghost var p1 := PT.StopStep(p, PT.StopCas);
      assert View() == p1.0;
      if !stopOnceSpent {
        stopOnceSpent := true;
        reqCtxCancelled := true;
        assert !stopChClosed;
        stopChClosed := true;
      }
      ghost var p2 := PT.StopStep(p1.0, p1.1);
      ghost var p3 := if p2.1.StopBroadcast? then PT.StopStep(p2.0, p2.1) else p2;
      assert View() == p3.0 && p3.1.StopToken?;
      stopPolling := true;
      assert View() == PT.StopStep(p3.0, p3.1).0;
      assert StopFrom(p3.0, p3.1) == View();
      assert StopFrom(p2.0, p2.1) == StopFrom(p3.0, p3.1);
      assert StopFrom(p1.0, p1.1) == StopFrom(p2.0, p2.1);
    }
  }
}
