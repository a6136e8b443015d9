/**
 * The per-player network component. A local instance latches the jump input every frame and
 * sends its state at most once per `sendInterval`; a remote instance copies the latest
 * authoritative state into its targets and animator parameters.
 */
module NetPlayer {

  import opened Schema
  import opened NetManager

  const LerpSpeed: real := 15.0
  const DefaultSendInterval: real := 0.05

  // ---------------------------------------------------------------- send scheduler

  /** The scheduler's state: the pending jump and the earliest time of the next send. */
  datatype Latch = Latch(jumpQueued: bool, nextSendTime: real)

  /** What a local frame observes: `Time.time` and whether the jump input is pressed. */
  datatype Tick = Tick(time: real, jumpPressed: bool)

  /** A frame emits nothing, or calls `SendLocalState` with the latched jump flag. */
  datatype Emission = Quiet | Fire(isJumping: bool)

  datatype StepResult = StepResult(latch: Latch, emitted: Emission)
  datatype Trace = Trace(final: Latch, emitted: seq<Emission>)

  /** `nextSendTime` and `_jumpQueued` as the component starts. */
  const InitialLatch := Latch(false, 0.0)

  /** One local frame: latch the jump first, then send and clear if the send time is reached. */
  function LocalStep(l: Latch, interval: real, t: Tick): StepResult {
    var queued := l.jumpQueued || t.jumpPressed;
    if t.time >= l.nextSendTime then StepResult(Latch(false, t.time + interval), Fire(queued))
    else StepResult(Latch(queued, l.nextSendTime), Quiet)
  }

  /** A run of local frames, frame by frame. */
  function Run(l: Latch, interval: real, ticks: seq<Tick>): (r: Trace)
    ensures |r.emitted| == |ticks|
    decreases |ticks|
  {
    if ticks == [] then Trace(l, [])
    else
      var s := LocalStep(l, interval, ticks[0]);
      var rest := Run(s.latch, interval, ticks[1..]);
      Trace(rest.final, [s.emitted] + rest.emitted)
  }

  predicate NonDecreasing(ticks: seq<Tick>) {
    forall i, j :: 0 <= i < j < |ticks| ==> ticks[i].time <= ticks[j].time
  }

  /**
   * A frame sends iff `time >= nextSendTime`; a send clears the latch and schedules the next
   * send `interval` later; a non-send frame keeps the schedule and never clears a pending jump.
   */
  lemma StepSchedule(l: Latch, interval: real, t: Tick)
    ensures var s := LocalStep(l, interval, t);
      && (s.emitted.Fire? <==> t.time >= l.nextSendTime)
      && (s.emitted.Fire? ==> !s.latch.jumpQueued && s.latch.nextSendTime == t.time + interval)
      && (s.emitted.Quiet? ==> s.latch.nextSendTime == l.nextSendTime &&
                               (l.jumpQueued || t.jumpPressed ==> s.latch.jumpQueued))
  {
  }

  /** The first local frame sends at once, since `nextSendTime` starts at 0. */
  lemma FirstFrameSends(interval: real, t: Tick)
    requires t.time >= 0.0
    ensures LocalStep(InitialLatch, interval, t).emitted.Fire?
  {
  }

  /** A jump was pressed in one of the frames `lo..hi-1`. */
  predicate JumpIn(ticks: seq<Tick>, lo: nat, hi: nat)
    requires lo <= hi <= |ticks|
  {
    exists k :: lo <= k < hi && ticks[k].jumpPressed
  }

  lemma JumpInShift(ticks: seq<Tick>, lo: nat, hi: nat)
    requires 1 <= lo <= hi <= |ticks|
    ensures JumpIn(ticks, lo, hi) == JumpIn(ticks[1..], lo - 1, hi - 1)
  {
    if JumpIn(ticks, lo, hi) {
      var k :| lo <= k < hi && ticks[k].jumpPressed;
      assert ticks[1..][k - 1].jumpPressed;
    }
    if JumpIn(ticks[1..], lo - 1, hi - 1) {
      var k :| lo - 1 <= k < hi - 1 && ticks[1..][k].jumpPressed;
      assert ticks[k + 1].jumpPressed;
    }
  }

  lemma JumpInFirst(ticks: seq<Tick>, hi: nat)
    requires 1 <= hi <= |ticks|
    ensures JumpIn(ticks, 0, hi) == (ticks[0].jumpPressed || JumpIn(ticks, 1, hi))
  {
  }

  /** The emissions of a run after its first frame are those of the run from the first step's latch. */
  lemma RunTail(l: Latch, interval: real, ticks: seq<Tick>, k: nat)
    requires 0 < k < |ticks|
    ensures Run(l, interval, ticks).emitted[k] ==
              Run(LocalStep(l, interval, ticks[0]).latch, interval, ticks[1..]).emitted[k - 1]
  {
  }

  /**
   * Up to and including the first send frame `j` of a run, the sample carries `isJumping`
   * exactly when a jump was pending at the start or was pressed in one of frames `0..j`.
   */
  lemma {:induction false} LatchWindow(l: Latch, interval: real, w: seq<Tick>, j: nat)
    requires j < |w|
    requires forall k :: 0 <= k < j ==> Run(l, interval, w).emitted[k].Quiet?
    requires Run(l, interval, w).emitted[j].Fire?
    ensures Run(l, interval, w).emitted[j].isJumping <==> l.jumpQueued || JumpIn(w, 0, j + 1)
    decreases j
  {
    var s := LocalStep(l, interval, w[0]);
    assert Run(l, interval, w).emitted[0] == s.emitted;
    if j > 0 {
      forall k | 0 <= k < j - 1 ensures Run(s.latch, interval, w[1..]).emitted[k].Quiet? {
        RunTail(l, interval, w, k + 1);
      }
      RunTail(l, interval, w, j);
      LatchWindow(s.latch, interval, w[1..], j - 1);
      JumpInFirst(w, j + 1);
      JumpInShift(w, 1, j + 1);
    }
  }

  /**
   * Between two consecutive send frames `i < j`, the second sample carries `isJumping` exactly
   * when a jump was pressed in one of frames `i+1..j`: the send at `i` cleared the latch.
   */
  lemma {:induction false} JumpSincePreviousSend(l: Latch, interval: real, ticks: seq<Tick>, i: nat, j: nat)
    requires i < j < |ticks|
    requires Run(l, interval, ticks).emitted[i].Fire? && Run(l, interval, ticks).emitted[j].Fire?
    requires forall k :: i < k < j ==> Run(l, interval, ticks).emitted[k].Quiet?
    ensures Run(l, interval, ticks).emitted[j].isJumping <==> JumpIn(ticks, i + 1, j + 1)
    decreases i
  {
    var s := LocalStep(l, interval, ticks[0]);
    var rest := ticks[1..];
    forall k | i - 1 < k < j - 1 ensures Run(s.latch, interval, rest).emitted[k].Quiet? {
      RunTail(l, interval, ticks, k + 1);
    }
    RunTail(l, interval, ticks, j);
    JumpInShift(ticks, i + 1, j + 1);
    if i > 0 {
      RunTail(l, interval, ticks, i);
      JumpSincePreviousSend(s.latch, interval, rest, i - 1, j - 1);
    } else {
      assert Run(l, interval, ticks).emitted[0] == s.emitted;
      LatchWindow(s.latch, interval, rest, j - 1);
    }
  }

  /** A jump pressed in frame `i` is carried by the first send frame `j >= i`. */
  lemma {:induction false} JumpIsCarried(l: Latch, interval: real, ticks: seq<Tick>, i: nat, j: nat)
    requires i <= j < |ticks| && ticks[i].jumpPressed
    requires forall k :: i <= k < j ==> Run(l, interval, ticks).emitted[k].Quiet?
    requires Run(l, interval, ticks).emitted[j].Fire?
    ensures Run(l, interval, ticks).emitted[j] == Fire(true)
    decreases i
  {
    var s := LocalStep(l, interval, ticks[0]);
    assert Run(l, interval, ticks).emitted[0] == s.emitted;
    if j > 0 {
      forall k | 0 <= k < j - 1 && i <= k + 1 ensures Run(s.latch, interval, ticks[1..]).emitted[k].Quiet? {
        RunTail(l, interval, ticks, k + 1);
      }
      RunTail(l, interval, ticks, j);
      if i > 0 {
        JumpIsCarried(s.latch, interval, ticks[1..], i - 1, j - 1);
      } else {
        LatchWindow(s.latch, interval, ticks[1..], j - 1);
      }
    }
  }

  /** From a schedule no earlier than `T + interval`, and frames no earlier than `T`, no send comes before `T + interval`. */
  lemma {:induction false} NoEarlySend(l: Latch, interval: real, w: seq<Tick>, T: real)
    requires l.nextSendTime >= T + interval
    requires forall k :: 0 <= k < |w| ==> w[k].time >= T
    ensures forall k :: 0 <= k < |w| && Run(l, interval, w).emitted[k].Fire? ==> w[k].time >= T + interval
    decreases |w|
  {
    if w != [] {
      var s := LocalStep(l, interval, w[0]);
      var rest := Run(s.latch, interval, w[1..]);
      assert Run(l, interval, w).emitted == [s.emitted] + rest.emitted;
      NoEarlySend(s.latch, interval, w[1..], T);
      forall k | 0 < k < |w| && Run(l, interval, w).emitted[k].Fire? ensures w[k].time >= T + interval {
        assert rest.emitted[k - 1].Fire? && w[1..][k - 1] == w[k];
      }
    }
  }

  /** With non-decreasing time, any two send frames are at least `sendInterval` apart. */
  lemma {:induction false} SendSpacing(l: Latch, interval: real, ticks: seq<Tick>, i: nat, j: nat)
    requires NonDecreasing(ticks) && i < j < |ticks|
    requires Run(l, interval, ticks).emitted[i].Fire? && Run(l, interval, ticks).emitted[j].Fire?
    ensures ticks[j].time - ticks[i].time >= interval
    decreases i
  {
    var s := LocalStep(l, interval, ticks[0]);
    var rest := Run(s.latch, interval, ticks[1..]);
    assert Run(l, interval, ticks).emitted == [s.emitted] + rest.emitted;
    assert rest.emitted[j - 1] == Run(l, interval, ticks).emitted[j];
    if i > 0 {
      assert rest.emitted[i - 1] == Run(l, interval, ticks).emitted[i];
      SendSpacing(s.latch, interval, ticks[1..], i - 1, j - 1);
    } else {
      NoEarlySend(s.latch, interval, ticks[1..], ticks[0].time);
    }
  }

  // ---------------------------------------------------------------- remote smoothing

  lemma MulNonNegative(x: real, y: real)
    requires x >= 0.0 && y >= 0.0
    ensures x * y >= 0.0
  {
  }

  lemma BlendBetween(a: real, b: real, c: real, p: real)
    requires 0.0 <= c <= 1.0 && p == (b - a) * c
    ensures a <= b ==> 0.0 <= p <= b - a
    ensures b <= a ==> b - a <= p <= 0.0
  {
    var d := if a <= b then b - a else a - b;
    MulNonNegative(d, c);
    MulNonNegative(d, 1.0 - c);
  }

  /**
   * `Mathf.Lerp(a, b, t)`, that is `a + (b - a) * t` with `t` clamped to [0, 1]; the two
   * clamped cases are written out, where the formula gives `a` and `b`.
   */
  function Lerp(a: real, b: real, t: real): (r: real)
    ensures a <= b ==> a <= r <= b
    ensures b <= a ==> b <= r <= a
    ensures t <= 0.0 ==> r == a
    ensures t >= 1.0 ==> r == b
  {
    if t <= 0.0 then a
    else if t >= 1.0 then b
    else
      var p := (b - a) * t;
      BlendBetween(a, b, t, p);
      a + p
  }

  /** The animator parameters a remote instance drives. */
  datatype AnimatorParams = AnimatorParams(inputX: real, inputY: real, isGrounded: bool, isJumping: bool)

  /** What `SendLocalState` reads from the engine: transform, controller, input and camera. */
  datatype LocalSample = LocalSample(position: Vec3, yaw: real, velocity: Vec3, move: Vec2,
                                     grounded: bool, camera: Vec2)

  function SampleMessage(s: LocalSample, isJumping: bool): UpdateMessage {
    BuildPlayerUpdate(s.position, s.yaw, s.velocity, s.move.x, s.move.y, s.grounded, isJumping, s.camera)
  }

  class NetworkPlayer {
    const isLocal: bool
    const hasAnimator: bool
    var sendInterval: real
    var nextSendTime: real
    var jumpQueued: bool
    var targetPos: Vec3
    /** `targetRot` is the rotation by this yaw about the vertical axis. */
    var targetYaw: real
    var remoteAnimX: real
    var remoteAnimY: real
    var animator: AnimatorParams

    function LatchOf(): Latch
      reads this
    {
      Latch(jumpQueued, nextSendTime)
    }

    /** `Initialize`, together with the field initialisers. */
    constructor Initialize(isLocalPlayer: bool, animatorFound: bool)
      ensures isLocal == isLocalPlayer && hasAnimator == animatorFound
      ensures LatchOf() == InitialLatch && sendInterval == DefaultSendInterval
      ensures remoteAnimX == 0.0 && remoteAnimY == 0.0
    {
      isLocal := isLocalPlayer;
      hasAnimator := animatorFound;
      sendInterval := DefaultSendInterval;
      nextSendTime := 0.0;
      jumpQueued := false;
      targetPos := Vec3(0.0, 0.0, 0.0);
      targetYaw := 0.0;
      remoteAnimX := 0.0;
      remoteAnimY := 0.0;
      animator := AnimatorParams(0.0, 0.0, false, false);
    }

    /**
     * One frame. `manager` is `NetworkManager.Instance`, `state` the replicated record,
     * `jumpPressed` the input's `JumpPressed` (false without an input component).
     */
    method Update(time: real, dt: real, jumpPressed: bool, sample: LocalSample, state: Player,
                  manager: NetworkManager?)
      modifies this, manager
      ensures sendInterval == old(sendInterval)
      ensures isLocal ==> var s := LocalStep(old(LatchOf()), sendInterval, Tick(time, jumpPressed));
        && LatchOf() == s.latch
        && targetPos == old(targetPos) && targetYaw == old(targetYaw) && animator == old(animator)
        && remoteAnimX == old(remoteAnimX) && remoteAnimY == old(remoteAnimY)
        && (manager != null ==>
              && manager.sent == old(manager.sent) +
                   (if s.emitted.Fire? && manager.roomSession.Some? then [SampleMessage(sample, s.emitted.isJumping)] else [])
              && manager.roomSession == old(manager.roomSession) && manager.players == old(manager.players)
              && manager.destroyed == old(manager.destroyed) && manager.history == old(manager.history))
      ensures !isLocal ==>
        && LatchOf() == old(LatchOf())
        && (manager != null ==> unchanged(manager))
        && targetPos == Vec3(state.x, state.y, state.z) && targetYaw == state.rotationY
        && (hasAnimator ==>
              && remoteAnimX == Lerp(old(remoteAnimX), state.animInputX, dt * LerpSpeed)
              && remoteAnimY == Lerp(old(remoteAnimY), state.animInputY, dt * LerpSpeed)
              && animator == AnimatorParams(remoteAnimX, remoteAnimY, state.isGrounded, state.isJumping))
        && (!hasAnimator ==>
              remoteAnimX == old(remoteAnimX) && remoteAnimY == old(remoteAnimY) && animator == old(animator))
    {
      if isLocal {
        if jumpPressed {
          jumpQueued := true;
        }
        if time >= nextSendTime {
          SendLocalState(sample, manager);
          jumpQueued := false;
          nextSendTime := time + sendInterval;
        }
      } else {
        UpdateRemoteState(state, dt);
      }
    }

    /** Hand the sample and the latched jump to the manager; with no manager, nothing is sent. */
    method SendLocalState(sample: LocalSample, manager: NetworkManager?)
      modifies manager
      ensures manager != null ==>
        && manager.sent == old(manager.sent) +
             (if manager.roomSession.Some? then [SampleMessage(sample, jumpQueued)] else [])
        && manager.roomSession == old(manager.roomSession) && manager.players == old(manager.players)
        && manager.destroyed == old(manager.destroyed) && manager.history == old(manager.history)
    {
      if manager == null {
        return;
      }
      manager.SendPlayerUpdate(sample.position, sample.yaw, sample.velocity, sample.move.x, sample.move.y,
                               sample.grounded, jumpQueued, sample.camera);
    }

    /** Targets straight from the latest state; animation inputs smoothed, flags copied as they are. */
    method UpdateRemoteState(state: Player, dt: real)
      modifies this
      ensures LatchOf() == old(LatchOf()) && sendInterval == old(sendInterval)
      ensures targetPos == Vec3(state.x, state.y, state.z) && targetYaw == state.rotationY
      ensures hasAnimator ==>
        && remoteAnimX == Lerp(old(remoteAnimX), state.animInputX, dt * LerpSpeed)
        && remoteAnimY == Lerp(old(remoteAnimY), state.animInputY, dt * LerpSpeed)
        && animator == AnimatorParams(remoteAnimX, remoteAnimY, state.isGrounded, state.isJumping)
      ensures !hasAnimator ==>
        remoteAnimX == old(remoteAnimX) && remoteAnimY == old(remoteAnimY) && animator == old(animator)
    {
      targetPos := Vec3(state.x, state.y, state.z);
      targetYaw := state.rotationY;
      if hasAnimator {
        remoteAnimX := Lerp(remoteAnimX, state.animInputX, dt * LerpSpeed);
        remoteAnimY := Lerp(remoteAnimY, state.animInputY, dt * LerpSpeed);
        animator := AnimatorParams(remoteAnimX, remoteAnimY, state.isGrounded, state.isJumping);
      }
    }
  }
}
