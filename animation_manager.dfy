/**
 * The frame loop of the rainfall animation (startAnimation's closure): the
 * current frame index, the paused flag and the pending timer, with nextFrame,
 * pause and resume. The overlay updates are recorded as the sequence of
 * timestamps shown; the timer firing is a call of NextFrame.
 */
module AnimationManager {
  import opened Common

  /** The delay after the last frame of the list. */
  const LastFrameDelay: int := 15000

  /** The delay after any other frame. */
  const FrameDelay: int := 3000

  /** currentFrame, paused, the pending timeout's delay (None after clearTimeout) and the frames shown so far. */
  datatype Animacao = Animacao(currentFrame: nat, paused: bool, pending: Option<int>, shown: seq<string>)

  /** nextFrame: nothing while paused; otherwise wrap the index, show that frame and set the timer. */
  function Step(ts: seq<string>, a: Animacao): Animacao
    requires ts != []
  {
    if a.paused then a
    else
      var frame := if a.currentFrame >= |ts| then 0 else a.currentFrame;
      var delay := if frame == |ts| - 1 then LastFrameDelay else FrameDelay;
      Animacao(frame + 1, false, Some(delay), a.shown + [ts[frame]])
  }

  /** pause: set the flag and cancel the pending timer. */
  function PauseOf(a: Animacao): Animacao
  {
    a.(paused := true, pending := None)
  }

  /** resume: only when paused, clear the flag and take a step at once. */
  function ResumeOf(ts: seq<string>, a: Animacao): Animacao
    requires ts != []
  {
    if a.paused then Step(ts, a.(paused := false)) else a
  }

  /** The state right after startAnimation: the first frame is shown. */
  function Started(ts: seq<string>): Animacao
    requires ts != []
  {
    Step(ts, Animacao(0, false, None, []))
  }

  /** The state after the timer has fired k times without a pause. */
  function Run(ts: seq<string>, k: nat): Animacao
    requires ts != []
  {
    if k == 0 then Started(ts) else Step(ts, Run(ts, k - 1))
  }

  /** The index of the k-th frame shown: one past the previous, back to 0 after the last. */
  function Wrap(k: nat, n: nat): nat
    requires n > 0
  {
    if k == 0 then 0 else if Wrap(k - 1, n) + 1 >= n then 0 else Wrap(k - 1, n) + 1
  }

  /** The first n frames are the list in order. */
  lemma {:induction false} WrapFirstRound(k: nat, n: nat)
    requires k < n
    ensures Wrap(k, n) == k
    decreases k
  {
    if k > 0 {
      WrapFirstRound(k - 1, n);
    }
  }

  /** After n frames the same frame comes back. */
  lemma {:induction false} WrapPeriodic(k: nat, n: nat)
    requires n > 0
    ensures Wrap(k + n, n) == Wrap(k, n)
    decreases k
  {
    if k == 0 {
      WrapFirstRound(n - 1, n);
    } else {
      WrapPeriodic(k - 1, n);
      assert k + n - 1 == (k - 1) + n;
    }
  }

  /** The frames shown, k + 1 of them, follow Wrap through the list. */
  ghost predicate Cycles(ts: seq<string>, k: nat, a: Animacao)
    requires ts != []
  {
    |a.shown| == k + 1 && (forall i :: 0 <= i <= k ==> a.shown[i] == ts[Wrap(i, |ts|)])
    && a.currentFrame == Wrap(k, |ts|) + 1 && !a.paused
    && a.pending == Some(if Wrap(k, |ts|) == |ts| - 1 then LastFrameDelay else FrameDelay)
  }

  /**
   * The timer's steps show the frames in list order and start over after
   * the last (with WrapFirstRound and WrapPeriodic); the timer waits 15000 ms
   * after the last frame and 3000 ms after any other.
   */
  lemma {:induction false} RunCycles(ts: seq<string>, k: nat)
    requires ts != []
    ensures Cycles(ts, k, Run(ts, k))
    decreases k
  {
    if k > 0 {
      RunCycles(ts, k - 1);
      var a := Run(ts, k - 1);
      var b := Step(ts, a);
      assert b.shown == a.shown + [ts[Wrap(k, |ts|)]];
      forall i | 0 <= i <= k ensures b.shown[i] == ts[Wrap(i, |ts|)] {
        if i < k {
          assert b.shown[i] == a.shown[i];
        }
      }
    }
  }

  /** While paused, a timer step changes nothing. */
  lemma {:induction false} PausedStep(ts: seq<string>, a: Animacao)
    requires ts != [] && a.paused
    ensures Step(ts, a) == a
  {
  }

  /** Pausing and resuming shows the next frame at once: the same as one step, from the same index. */
  lemma {:induction false} PauseResume(ts: seq<string>, a: Animacao)
    requires ts != [] && !a.paused
    ensures ResumeOf(ts, PauseOf(a)) == Step(ts, a)
    ensures PauseOf(a).pending.None? && Step(ts, PauseOf(a)) == PauseOf(a)
  {
  }

  /** resume has no effect unless paused. */
  lemma {:induction false} ResumeRunning(ts: seq<string>, a: Animacao)
    requires ts != [] && !a.paused
    ensures ResumeOf(ts, a) == a
  {
  }

  /** The controller startAnimation returns, with the closure's state as fields. */
  class Animation {
    const timestamps: seq<string>
    var currentFrame: nat
    var paused: bool
    var pending: Option<int>
    var shown: seq<string>

    function State(): Animacao
      reads this
    {
      Animacao(currentFrame, paused, pending, shown)
    }

    /** The closure's initial state before its first nextFrame. */
    constructor(ts: seq<string>)
      requires ts != []
      ensures timestamps == ts && State() == Animacao(0, false, None, [])
    {
      timestamps := ts;
      currentFrame := 0;
      paused := false;
      pending := None;
      shown := [];
    }

    method NextFrame()
      requires timestamps != []
      modifies this
      ensures State() == Step(timestamps, old(State()))
    {
      if paused {
        return;
      }
      if currentFrame >= |timestamps| {
        currentFrame := 0;
      }
      shown := shown + [timestamps[currentFrame]];
      var isLastFrame := currentFrame == |timestamps| - 1;
      var delay := if isLastFrame then LastFrameDelay else FrameDelay;
      currentFrame := currentFrame + 1;
      pending := Some(delay);
    }

    method Pause()
      modifies this
      ensures State() == PauseOf(old(State()))
    {
      paused := true;
      if pending.Some? {
        pending := None;
      }
    }

    method Resume()
      requires timestamps != []
      modifies this
      ensures State() == ResumeOf(timestamps, old(State()))
    {
      if paused {
        paused := false;
        NextFrame();
      }
    }
  }

  /** startAnimation: no controller for an empty list, otherwise one that has shown the first frame. */
  method StartAnimation(ts: seq<string>) returns (c: Animation?)
    ensures ts == [] <==> c == null
    ensures c != null ==> fresh(c) && c.timestamps == ts && c.State() == Started(ts)
  {
    if ts == [] {
      return null;
    }
    c := new Animation(ts);
    c.NextFrame();
  }
}
