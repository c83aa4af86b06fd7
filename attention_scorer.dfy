/** The per-session attention scorer: run-length tracking of eye closure,
    gaze deviation and head pose, and the sliding-window PERCLOS ratio. */
module AttentionScoring {
  import opened Wrappers

  /** Length of the PERCLOS sliding window, in seconds. */
  const PerclosTimePeriod: real := 60.0

  // Value thresholds, as the constructor sets them.
  const EarThresh: real := 0.15
  const GazeThresh: real := 0.015
  const PerclosThresh: real := 0.2
  const RollThresh: real := 60.0
  const PitchThresh: real := 20.0
  const YawThresh: real := 30.0

  // Time thresholds, in seconds.
  const EarTimeThresh: real := 12.0
  const GazeTimeThresh: real := 6.0
  const PoseTimeThresh: real := 12.0

  function Abs(x: real): real {
    if x < 0.0 then -x else x
  }

  /** Eyes count as closed when an EAR value is present and at most the threshold. */
  predicate IsEyeClosed(ear: Option<real>) {
    ear.Some? && ear.value <= EarThresh
  }

  /** Gaze counts as away when a gaze score is present and above the threshold. */
  predicate IsLookingAway(gaze: Option<real>) {
    gaze.Some? && gaze.value > GazeThresh
  }

  /** Some head angle lies beyond its threshold. */
  predicate IsPoseDistracted(roll: real, pitch: real, yaw: real) {
    Abs(roll) > RollThresh || Abs(pitch) > PitchThresh || Abs(yaw) > YawThresh
  }

  /** Every head angle lies within its threshold. */
  predicate IsPoseAttentive(roll: real, pitch: real, yaw: real) {
    Abs(roll) <= RollThresh && Abs(pitch) <= PitchThresh && Abs(yaw) <= YawThresh
  }

  /** A run anchor (the last time the condition was good) and the run-length measured from it. */
  datatype Run = Run(anchor: real, length: real)

  /** One frame of run-length tracking: while the condition holds the anchor stays
      and the run-length is the time since it; otherwise the anchor moves to now
      and the run-length is 0. */
  function RunStep(running: bool, anchor: real, tNow: real): (r: Run)
    requires anchor <= tNow
    ensures running ==> r.anchor == anchor
    ensures !running ==> r.anchor == tNow && r.length == 0.0
    ensures r.length == tNow - r.anchor
    ensures anchor <= r.anchor <= tNow && r.length >= 0.0
  {
    if running then Run(anchor, tNow - anchor) else Run(tNow, 0.0)
  }

  /** The ratio of closed-eye frames among the frames of the window, 0 for an empty window. */
  function PerclosRatio(closed: nat, frames: nat): (r: real)
    ensures 0.0 <= r
    ensures closed <= frames ==> r <= 1.0
    ensures frames > 0 ==> r * (frames as real) == closed as real
    ensures frames == 0 ==> r == 0.0
  {
    if frames > 0 then closed as real / frames as real else 0.0
  }

  /** The timestamps one call adds to a log: `t`, or nothing. */
  function Added(t: real, add: bool): seq<real> {
    if add then [t] else []
  }

  /** The timestamps among the first `n` of `s` that are not older than `cutoff`,
      in their original order. */
  function RecentPrefix(s: seq<real>, n: nat, cutoff: real): seq<real>
    requires n <= |s|
  {
    if n == 0 then [] else RecentPrefix(s, n - 1, cutoff) + Added(s[n - 1], s[n - 1] >= cutoff)
  }

  /** The timestamps of `s` that are not older than `cutoff`, in their original order. */
  function Recent(s: seq<real>, cutoff: real): seq<real> {
    RecentPrefix(s, |s|, cutoff)
  }

  /** Extending a log does not change what pruning keeps of its old entries. */
  lemma {:induction false} RecentPrefixExtend(s: seq<real>, t: real, n: nat, cutoff: real)
    requires n <= |s|
    ensures RecentPrefix(s + [t], n, cutoff) == RecentPrefix(s, n, cutoff)
  {
    if n > 0 {
      RecentPrefixExtend(s, t, n - 1, cutoff);
    }
  }

  /** Pruning a log extended by one timestamp prunes the log and keeps or drops that timestamp. */
  lemma RecentAppend(s: seq<real>, t: real, cutoff: real)
    ensures Recent(s + [t], cutoff) == Recent(s, cutoff) + Added(t, t >= cutoff)
  {
    RecentPrefixExtend(s, t, |s|, cutoff);
  }

  /** The same, for a timestamp that is added only when `add` holds. */
  lemma RecentAdded(s: seq<real>, t: real, add: bool, cutoff: real)
    ensures Recent(s + Added(t, add), cutoff) == Recent(s, cutoff) + Added(t, add && t >= cutoff)
  {
    if add {
      RecentAppend(s, t, cutoff);
    } else {
      assert s + Added(t, add) == s;
    }
  }

  /** Whatever survives pruning is at or after the cutoff. */
  lemma {:induction false} RecentPrefixBounds(s: seq<real>, n: nat, cutoff: real)
    requires n <= |s|
    ensures forall i :: 0 <= i < |RecentPrefix(s, n, cutoff)| ==> RecentPrefix(s, n, cutoff)[i] >= cutoff
  {
    if n > 0 {
      RecentPrefixBounds(s, n - 1, cutoff);
    }
  }

  /** Whatever survives pruning of the first `n` entries is at most `hi` when those entries are. */
  lemma {:induction false} RecentPrefixAtMost(s: seq<real>, n: nat, cutoff: real, hi: real)
    requires n <= |s|
    requires forall i :: 0 <= i < n ==> s[i] <= hi
    ensures forall i :: 0 <= i < |RecentPrefix(s, n, cutoff)| ==> RecentPrefix(s, n, cutoff)[i] <= hi
  {
    if n > 0 {
      RecentPrefixAtMost(s, n - 1, cutoff, hi);
    }
  }

  /** The timestamps are in non-decreasing order. */
  predicate Ordered(s: seq<real>) {
    forall i, j :: 0 <= i < j < |s| ==> s[i] <= s[j]
  }

  /** Pruning an ordered log keeps it ordered. */
  lemma {:induction false} RecentPrefixOrdered(s: seq<real>, n: nat, cutoff: real)
    requires n <= |s| && Ordered(s)
    ensures Ordered(RecentPrefix(s, n, cutoff))
  {
    if n > 0 {
      RecentPrefixOrdered(s, n - 1, cutoff);
      RecentPrefixAtMost(s, n - 1, cutoff, s[n - 1]);
    }
  }

  /** Pruning twice, with a later cutoff the second time, is pruning once with the later cutoff. */
  lemma {:induction false} RecentPrefixRecent(s: seq<real>, n: nat, c1: real, c2: real)
    requires n <= |s| && c1 <= c2
    ensures Recent(RecentPrefix(s, n, c1), c2) == RecentPrefix(s, n, c2)
  {
    if n > 0 {
      var x := s[n - 1];
      RecentPrefixRecent(s, n - 1, c1, c2);
      RecentAdded(RecentPrefix(s, n - 1, c1), x, x >= c1, c2);
    }
  }

  /** Pruning a pruned history extended by `t` at the cutoff 60 seconds before `t`
      gives the full log extended by `t`, pruned at that cutoff. */
  lemma PruneStep(all: seq<real>, hist: seq<real>, cutoff: real, t: real, add: bool)
    requires hist == Recent(all, cutoff)
    requires cutoff <= t - PerclosTimePeriod
    ensures Recent(hist + Added(t, add), t - PerclosTimePeriod) == Recent(all + Added(t, add), t - PerclosTimePeriod)
  {
    var c := t - PerclosTimePeriod;
    RecentPrefixRecent(all, |all|, cutoff, c);
    RecentAdded(hist, t, add, c);
    RecentAdded(all, t, add, c);
  }

  /** One frame passed to `GetPerclos`: its timestamp and whether the eyes were closed. */
  datatype Frame = Frame(time: real, eyeClosed: bool)

  /** The timestamps of all frames of a log. */
  function Times(log: seq<Frame>): (r: seq<real>)
    ensures |r| == |log|
    ensures forall i :: 0 <= i < |log| ==> r[i] == log[i].time
  {
    seq(|log|, i requires 0 <= i < |log| => log[i].time)
  }

  /** The timestamps of the closed-eye frames among the first `n` of a log. */
  function ClosedPrefix(log: seq<Frame>, n: nat): (r: seq<real>)
    requires n <= |log|
    ensures |r| <= n
  {
    if n == 0 then [] else ClosedPrefix(log, n - 1) + Added(log[n - 1].time, log[n - 1].eyeClosed)
  }

  /** The timestamps of the closed-eye frames of a log. */
  function ClosedTimes(log: seq<Frame>): (r: seq<real>)
    ensures |r| <= |log|
  {
    ClosedPrefix(log, |log|)
  }

  lemma {:induction false} ClosedPrefixExtend(log: seq<Frame>, f: Frame, n: nat)
    requires n <= |log|
    ensures ClosedPrefix(log + [f], n) == ClosedPrefix(log, n)
  {
    if n > 0 {
      ClosedPrefixExtend(log, f, n - 1);
    }
  }

  /** The closed-eye timestamps among the first `n` frames are at most `hi` when
      those frames' times are. */
  lemma {:induction false} ClosedPrefixAtMost(log: seq<Frame>, n: nat, hi: real)
    requires n <= |log|
    requires forall i :: 0 <= i < n ==> log[i].time <= hi
    ensures forall i :: 0 <= i < |ClosedPrefix(log, n)| ==> ClosedPrefix(log, n)[i] <= hi
  {
    if n > 0 {
      ClosedPrefixAtMost(log, n - 1, hi);
    }
  }

  /** The closed-eye timestamps of a log in time order are in time order. */
  lemma {:induction false} ClosedPrefixOrdered(log: seq<Frame>, n: nat)
    requires n <= |log| && Ordered(Times(log))
    ensures Ordered(ClosedPrefix(log, n))
  {
    if n > 0 {
      ClosedPrefixOrdered(log, n - 1);
      ClosedPrefixAtMost(log, n - 1, log[n - 1].time);
    }
  }

  lemma LogAppend(log: seq<Frame>, f: Frame)
    ensures Times(log + [f]) == Times(log) + [f.time]
    ensures ClosedTimes(log + [f]) == ClosedTimes(log) + Added(f.time, f.eyeClosed)
  {
    ClosedPrefixExtend(log, f, |log|);
  }

  /** Within any window there are no more closed-eye frames than frames. */
  lemma {:induction false} ClosedWithinFrames(log: seq<Frame>, n: nat, cutoff: real)
    requires n <= |log|
    ensures |Recent(ClosedPrefix(log, n), cutoff)| <= |RecentPrefix(Times(log), n, cutoff)|
  {
    if n > 0 {
      var f := log[n - 1];
      ClosedWithinFrames(log, n - 1, cutoff);
      RecentAdded(ClosedPrefix(log, n - 1), f.time, f.eyeClosed, cutoff);
    }
  }

  /** The sliding-window state of a scorer: the session's frames arrived in time
      order, none later than the latest frame; the histories are the timestamps of
      those frames, and of the closed-eye ones, pruned at 60 seconds before the
      latest frame; and the lifetime counters count every frame and every
      closed-eye frame. */
  ghost predicate WindowInv(lastFrame: real, log: seq<Frame>, frames: seq<real>, closed: seq<real>,
                            totalFrames: nat, totalClosed: nat)
  {
    && Ordered(Times(log))
    && (forall i :: 0 <= i < |log| ==> log[i].time <= lastFrame)
    && frames == Recent(Times(log), lastFrame - PerclosTimePeriod)
    && closed == Recent(ClosedTimes(log), lastFrame - PerclosTimePeriod)
    && totalFrames == |log|
    && totalClosed == |ClosedTimes(log)|
  }

  /** Recording a frame at `t`, no earlier than the last, and pruning as `GetPerclos`
      does, keeps the window state valid. */
  lemma WindowStep(lastFrame: real, log: seq<Frame>, frames: seq<real>, closed: seq<real>,
                   totalFrames: nat, totalClosed: nat, t: real, eyeClosed: bool)
    requires WindowInv(lastFrame, log, frames, closed, totalFrames, totalClosed)
    requires lastFrame <= t
    ensures WindowInv(t, log + [Frame(t, eyeClosed)],
                      Recent(frames + [t], t - PerclosTimePeriod),
                      Recent(closed + Added(t, eyeClosed), t - PerclosTimePeriod),
                      totalFrames + 1, totalClosed + |Added(t, eyeClosed)|)
  {
    LogAppend(log, Frame(t, eyeClosed));
    PruneStep(Times(log), frames, lastFrame - PerclosTimePeriod, t, true);
    PruneStep(ClosedTimes(log), closed, lastFrame - PerclosTimePeriod, t, eyeClosed);
  }

  /** What a valid window state says about its histories: every entry lies in the
      window `[lastFrame - 60, lastFrame]`, both histories are in time order, there
      are no more closed-eye entries than frames, and no more closed-eye frames
      than frames over the session. */
  lemma WindowFacts(lastFrame: real, log: seq<Frame>, frames: seq<real>, closed: seq<real>,
                    totalFrames: nat, totalClosed: nat)
    requires WindowInv(lastFrame, log, frames, closed, totalFrames, totalClosed)
    ensures forall i :: 0 <= i < |frames| ==> lastFrame - PerclosTimePeriod <= frames[i] <= lastFrame
    ensures forall i :: 0 <= i < |closed| ==> lastFrame - PerclosTimePeriod <= closed[i] <= lastFrame
    ensures Ordered(frames) && Ordered(closed)
    ensures |closed| <= |frames|
    ensures totalClosed <= totalFrames
  {
    var cutoff := lastFrame - PerclosTimePeriod;
    var times, closedTimes := Times(log), ClosedTimes(log);
    RecentPrefixBounds(times, |log|, cutoff);
    RecentPrefixBounds(closedTimes, |closedTimes|, cutoff);
    RecentPrefixAtMost(times, |log|, cutoff, lastFrame);
    ClosedPrefixAtMost(log, |log|, lastFrame);
    RecentPrefixAtMost(closedTimes, |closedTimes|, cutoff, lastFrame);
    RecentPrefixOrdered(times, |log|, cutoff);
    ClosedPrefixOrdered(log, |log|);
    RecentPrefixOrdered(closedTimes, |closedTimes|, cutoff);
    ClosedWithinFrames(log, |log|, cutoff);
  }

  /** The scorer of one study session. */
  class AttentionScorer {
    // run anchors: the last frame where the condition was good
    var lastTimeEyeOpened: real
    var lastTimeLookedAhead: real
    var lastTimeAttended: real
    var prevTime: real

    // run-lengths derived from the anchors
    var closureTime: real
    var notLookAheadTime: real
    var distractedTime: real

    var eyeClosureCounter: nat
    var totalClosedFrames: nat
    var totalFrames: nat

    // sliding-window histories (timestamps)
    var eyeClosureHistory: seq<real>
    var frameHistory: seq<real>

    /** The timestamp of the last `EvalScores` call (the construction time before the first). */
    ghost var lastEval: real
    /** The timestamp of the last `GetPerclos` call (the construction time before the first). */
    ghost var lastFrame: real
    /** Every frame passed to `GetPerclos`, never pruned. */
    ghost var log: seq<Frame>

    /** The run-lengths are the times since their anchors, measured at the last evaluation. */
    ghost predicate RunsValid()
      reads this`lastTimeEyeOpened, this`lastTimeLookedAhead, this`lastTimeAttended, this`lastEval
      reads this`closureTime, this`notLookAheadTime, this`distractedTime
    {
      && lastTimeEyeOpened <= lastEval
      && lastTimeLookedAhead <= lastEval
      && lastTimeAttended <= lastEval
      && closureTime == lastEval - lastTimeEyeOpened
      && notLookAheadTime == lastEval - lastTimeLookedAhead
      && distractedTime == lastEval - lastTimeAttended
    }

    /** The histories and the lifetime counters agree with the session's frames. */
    ghost predicate WindowValid()
      reads this`lastFrame, this`log, this`frameHistory, this`eyeClosureHistory
      reads this`totalFrames, this`totalClosedFrames
    {
      WindowInv(lastFrame, log, frameHistory, eyeClosureHistory, totalFrames, totalClosedFrames)
    }

    /** The scorer invariant. `EvalScores` keeps the first part and does not touch
        the fields of the second; `GetPerclos` keeps the second and does not touch
        the fields of the first. */
    ghost predicate Valid()
      reads this
    {
      RunsValid() && WindowValid()
    }

    constructor (tNow: real)
      ensures Valid()
      ensures lastTimeEyeOpened == tNow && lastTimeLookedAhead == tNow && lastTimeAttended == tNow
      ensures prevTime == tNow
      ensures closureTime == 0.0 && notLookAheadTime == 0.0 && distractedTime == 0.0
      ensures eyeClosureCounter == 0 && totalClosedFrames == 0 && totalFrames == 0
      ensures eyeClosureHistory == [] && frameHistory == []
      ensures lastEval == tNow && lastFrame == tNow && log == []
    {
      lastTimeEyeOpened := tNow;
      lastTimeLookedAhead := tNow;
      lastTimeAttended := tNow;
      prevTime := tNow;
      closureTime := 0.0;
      notLookAheadTime := 0.0;
      distractedTime := 0.0;
      eyeClosureCounter := 0;
      totalClosedFrames := 0;
      totalFrames := 0;
      eyeClosureHistory := [];
      frameHistory := [];
      lastEval := tNow;
      lastFrame := tNow;
      log := [];
    }

    /** Updates the three run-lengths for one frame and compares each with its
        time threshold. The head angles are required: the source converts them
        with `float()` before scoring, which fails on a missing angle. */
    method EvalScores(tNow: real, ear: Option<real>, gaze: Option<real>, roll: real, pitch: real, yaw: real)
      returns (asleep: bool, lookingAway: bool, distracted: bool)
      requires RunsValid()
      requires tNow >= lastEval
      modifies this`lastTimeEyeOpened, this`lastTimeLookedAhead, this`lastTimeAttended
      modifies this`closureTime, this`notLookAheadTime, this`distractedTime, this`lastEval
      ensures RunsValid()
      // eye closure
      ensures IsEyeClosed(ear) ==>
        lastTimeEyeOpened == old(lastTimeEyeOpened) && closureTime == tNow - old(lastTimeEyeOpened)
      ensures !IsEyeClosed(ear) ==> lastTimeEyeOpened == tNow && closureTime == 0.0
      // gaze
      ensures IsLookingAway(gaze) ==>
        lastTimeLookedAhead == old(lastTimeLookedAhead) && notLookAheadTime == tNow - old(lastTimeLookedAhead)
      ensures !IsLookingAway(gaze) ==> lastTimeLookedAhead == tNow && notLookAheadTime == 0.0
      // head pose: exactly one of the two branches applies
      ensures IsPoseDistracted(roll, pitch, yaw) <==> !IsPoseAttentive(roll, pitch, yaw)
      ensures IsPoseDistracted(roll, pitch, yaw) ==>
        lastTimeAttended == old(lastTimeAttended) && distractedTime == tNow - old(lastTimeAttended)
      ensures IsPoseAttentive(roll, pitch, yaw) ==> lastTimeAttended == tNow && distractedTime == 0.0
      // run-lengths never go negative, and the verdicts use inclusive boundaries
      ensures closureTime >= 0.0 && notLookAheadTime >= 0.0 && distractedTime >= 0.0
      ensures asleep <==> closureTime >= EarTimeThresh
      ensures lookingAway <==> notLookAheadTime >= GazeTimeThresh
      ensures distracted <==> distractedTime >= PoseTimeThresh
      ensures lastEval == tNow
    {
      var eye := RunStep(IsEyeClosed(ear), lastTimeEyeOpened, tNow);
      lastTimeEyeOpened, closureTime := eye.anchor, eye.length;

      var look := RunStep(IsLookingAway(gaze), lastTimeLookedAhead, tNow);
      lastTimeLookedAhead, notLookAheadTime := look.anchor, look.length;

      var pose :=
        if IsPoseDistracted(roll, pitch, yaw) then RunStep(true, lastTimeAttended, tNow)
        else if IsPoseAttentive(roll, pitch, yaw) then RunStep(false, lastTimeAttended, tNow)
        else Run(lastTimeAttended, distractedTime);
      lastTimeAttended, distractedTime := pose.anchor, pose.length;

      lastEval := tNow;

      asleep := closureTime >= EarTimeThresh;
      lookingAway := notLookAheadTime >= GazeTimeThresh;
      distracted := distractedTime >= PoseTimeThresh;
    }

    /** Records one frame in the sliding window, prunes the window to the last
        60 seconds and returns the PERCLOS ratio and whether it reaches the
        threshold. The `fps` argument takes no part in the computation. */
    method GetPerclos(tNow: real, fps: real, ear: Option<real>) returns (tired: bool, perclosScore: real)
      requires WindowValid()
      requires tNow >= lastFrame
      modifies this`frameHistory, this`eyeClosureHistory, this`totalFrames, this`totalClosedFrames
      modifies this`log, this`lastFrame
      ensures WindowValid()
      ensures log == old(log) + [Frame(tNow, IsEyeClosed(ear))] && lastFrame == tNow
      // the histories are the old ones with this frame added, pruned 60 seconds back
      ensures frameHistory == Recent(old(frameHistory) + [tNow], tNow - PerclosTimePeriod)
      ensures eyeClosureHistory ==
        Recent(old(eyeClosureHistory) + Added(tNow, IsEyeClosed(ear)), tNow - PerclosTimePeriod)
      ensures |frameHistory| > 0 && frameHistory[|frameHistory| - 1] == tNow
      ensures forall i :: 0 <= i < |frameHistory| ==> tNow - PerclosTimePeriod <= frameHistory[i] <= tNow
      ensures forall i :: 0 <= i < |eyeClosureHistory| ==> tNow - PerclosTimePeriod <= eyeClosureHistory[i] <= tNow
      ensures Ordered(frameHistory) && Ordered(eyeClosureHistory)
      // the ratio and the verdict
      ensures perclosScore == PerclosRatio(|eyeClosureHistory|, |frameHistory|)
      ensures 0.0 <= perclosScore <= 1.0
      ensures tired <==> perclosScore >= PerclosThresh
      // the lifetime counters
      ensures totalFrames == old(totalFrames) + 1
      ensures totalClosedFrames == old(totalClosedFrames) + (if IsEyeClosed(ear) then 1 else 0)
      ensures totalClosedFrames <= totalFrames
    {
      ghost var log0, frames0, closed0 := log, frameHistory, eyeClosureHistory;
      ghost var totals0, closedTotals0 := totalFrames, totalClosedFrames;
      var eyeClosed := IsEyeClosed(ear);
      tired := false;

      var frames := frameHistory + [tNow];
      var closed := eyeClosureHistory;
      if eyeClosed {
        closed := closed + [tNow];
      }
      assert closed == closed0 + Added(tNow, eyeClosed);

      var cutoffTime := tNow - PerclosTimePeriod;
      frames := Recent(frames, cutoffTime);
      closed := Recent(closed, cutoffTime);
      RecentAppend(frames0, tNow, cutoffTime);

      perclosScore := PerclosRatio(|closed|, |frames|);
      if perclosScore >= PerclosThresh {
        tired := true;
      }

      ghost var log1 := log0 + [Frame(tNow, eyeClosed)];
      WindowStep(lastFrame, log0, frames0, closed0, totals0, closedTotals0, tNow, eyeClosed);
      WindowFacts(tNow, log1, frames, closed, totals0 + 1, closedTotals0 + |Added(tNow, eyeClosed)|);

      frameHistory, eyeClosureHistory := frames, closed;
      totalFrames := totalFrames + 1;
      if eyeClosed {
        totalClosedFrames := totalClosedFrames + 1;
      }
      log, lastFrame := log1, tNow;
    }
  }
}
