/**
 The contract that the engine client relies on for every `Run` of a transport.

 A session is one `Run`.  Its loop may hand frames to the client's `messages` channel while it is live
 and not gated, and it ends by putting one value on the `onClose` channel it was given.
 */
module TransportContract {
  import opened Frames

  /** What one step of a transport loop does to the client's channels. */
  datatype Effect = Silent | Enqueue(frame: Frame) | Signal

  function FrameCount(e: Effect): nat {
    if e.Enqueue? then 1 else 0
  }

  datatype Session = Session(gated: bool, live: bool, fed: seq<Frame>, closes: nat)

  ghost predicate Fresh(s: Session) {
    s.live && s.fed == [] && s.closes == 0
  }

  /** The steps that the contract allows. */
  ghost predicate Allows(s: Session, e: Effect, t: Session) {
    match e
    case Silent => t.live == s.live && t.fed == s.fed && t.closes == s.closes && (t.gated ==> s.gated)
    case Enqueue(f) => s.live && !s.gated && t == s.(fed := s.fed + [f])
    case Signal => s.live && t == s.(live := false, closes := s.closes + 1)
  }

  ghost predicate SessionRun(ss: seq<Session>, es: seq<Effect>) {
    && |ss| == |es| + 1
    && Fresh(ss[0])
    && forall i :: 0 <= i < |es| ==> Allows(ss[i], es[i], ss[i + 1])
  }

  /** The frames that a sequence of effects hands over, in order. */
  function Fed(es: seq<Effect>): seq<Frame> {
    if es == [] then []
    else
      var init := Fed(es[..|es| - 1]);
      match es[|es| - 1]
      case Enqueue(f) => init + [f]
      case _ => init
  }

  /** How many close signals a sequence of effects puts. */
  function Signals(es: seq<Effect>): nat {
    if es == [] then 0
    else Signals(es[..|es| - 1]) + (if es[|es| - 1].Signal? then 1 else 0)
  }

  /**
   Every session that keeps the contract puts at most one close signal, exactly when its loop has ended,
   and does nothing visible afterwards.
   */
  lemma {:induction false} ContractHolds(ss: seq<Session>, es: seq<Effect>)
    requires SessionRun(ss, es)
    ensures Fed(es) == ss[|es|].fed
    ensures Signals(es) == ss[|es|].closes == if ss[|es|].live then 0 else 1
    ensures forall i, j :: 0 <= i < j < |es| && es[i].Signal? ==> es[j].Silent?
    ensures forall i :: 0 <= i < |es| && es[i].Signal? ==> !ss[|es|].live
  {
    if es != [] {
      var n := |es| - 1;
      assert Allows(ss[n], es[n], ss[n + 1]);
      assert SessionRun(ss[..n + 1], es[..n]) by {
        forall i | 0 <= i < n
          ensures Allows(ss[..n + 1][i], es[..n][i], ss[..n + 1][i + 1])
        {
          assert Allows(ss[i], es[i], ss[i + 1]);
        }
      }
      ContractHolds(ss[..n + 1], es[..n]);
      forall i, j | 0 <= i < j < |es| && es[i].Signal?
        ensures es[j].Silent?
      {
        assert es[..n][i].Signal?;
        if j < n {
          assert es[..n][j].Silent?;
        }
      }
      forall i | 0 <= i < |es| && es[i].Signal?
        ensures !ss[|es|].live
      {
        if i < n {
          assert es[..n][i].Signal?;
        }
      }
    }
  }
}
