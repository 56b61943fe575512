/**
 * Properties of a stage task over many polls.  Between two polls the
 * daemon may change the directories arbitrarily, so a run is a sequence of
 * ticks, each giving the clock and the files as the poll finds them.
 */
module StageRuns {
  import opened Files
  import opened Tasks
  import opened Stage

  datatype Tick = Tick(now: nat, fs: FileMap)

  /** The flags after one poll per tick, in order. */
  function FlagsAfter(l: Layout, size: nat, f: Flags, ticks: seq<Tick>): Flags
    decreases |ticks|
  {
    if ticks == [] then f
    else
      var last := ticks[|ticks| - 1];
      PollStep(l, size, FlagsAfter(l, size, f, ticks[..|ticks| - 1]), last.fs, last.now).flags
  }

  /** The reply of the poll at tick `k`. */
  function ReplyAt(l: Layout, size: nat, f: Flags, ticks: seq<Tick>, k: nat): Reply<bool>
    requires k < |ticks|
  {
    PollStep(l, size, FlagsAfter(l, size, f, ticks[..k]), ticks[k].fs, ticks[k].now).reply
  }

  /** A poll at this tick may arm the grace deadline: no error, full in-file. */
  predicate MayArm(l: Layout, size: nat, t: Tick) {
    l.errorFile !in t.fs && Arrived(l, size, t.fs)
  }

  /** A task freshly put into the complete phase. */
  predicate FreshComplete(f: Flags) {
    f.doComplete && !f.doStart && f.delayUntil == -1
  }

  /**
   * Through any run of the complete phase the deadline is either unarmed
   * or lies one grace period after a tick at which the in-file was full.
   */
  lemma {:induction false} DeadlineFollowsArrival(l: Layout, size: nat, f: Flags, ticks: seq<Tick>)
    requires FreshComplete(f)
    ensures var g := FlagsAfter(l, size, f, ticks);
      && g.doComplete && !g.doStart
      && (g.delayUntil == -1 ||
          exists j :: 0 <= j < |ticks| && MayArm(l, size, ticks[j]) && g.delayUntil == ticks[j].now + GracePeriod)
    decreases |ticks|
  {
    if ticks != [] {
      var n := |ticks| - 1;
      var prefix := ticks[..n];
      DeadlineFollowsArrival(l, size, f, prefix);
      var before := FlagsAfter(l, size, f, prefix);
      var after := FlagsAfter(l, size, f, ticks);
      if after.delayUntil != -1 {
        if before.delayUntil == -1 {
          assert MayArm(l, size, ticks[n]);
        } else {
          var j :| 0 <= j < |prefix| && MayArm(l, size, prefix[j]) && before.delayUntil == prefix[j].now + GracePeriod;
          assert prefix[j] == ticks[j];
        }
      }
    }
  }

  /**
   * The complete phase never succeeds before a grace period has passed
   * since some earlier poll found the in-file full.
   */
  lemma {:induction false} NeverBeforeGrace(l: Layout, size: nat, f: Flags, ticks: seq<Tick>, k: nat)
    requires FreshComplete(f)
    requires k < |ticks| && ReplyAt(l, size, f, ticks, k).Value?
    ensures exists j :: 0 <= j < k && MayArm(l, size, ticks[j]) && ticks[j].now + GracePeriod <= ticks[k].now
  {
    var prefix := ticks[..k];
    DeadlineFollowsArrival(l, size, f, prefix);
    var g := FlagsAfter(l, size, f, prefix);
    var j :| 0 <= j < |prefix| && MayArm(l, size, prefix[j]) && g.delayUntil == prefix[j].now + GracePeriod;
    assert prefix[j] == ticks[j];
  }

  /**
   * The recall scenario: with the in-file full at `t0`, the first poll of the
   * complete phase withdraws the request; a poll at least a grace period
   * later moves the in-file into place and succeeds, and one earlier waits.
   */
  lemma CompletesAfterGrace(l: Layout, size: nat, f: Flags, fs: FileMap, t0: nat, t1: nat)
    requires l.Separate() && FreshComplete(f)
    requires MayArm(l, size, Tick(t0, fs))
    ensures var s0 := PollStep(l, size, f, fs, t0);
      && s0.reply == Null && l.requestFile !in s0.fs
      && var s1 := PollStep(l, size, s0.flags, s0.fs, t1);
      && (t1 < t0 + GracePeriod ==> s1 == Step(Null, s0.flags, s0.fs))
      && (t1 >= t0 + GracePeriod ==>
            && s1.reply == Value(true)
            && l.file in s1.fs && s1.fs[l.file] == fs[l.inFile]
            && l.inFile !in s1.fs && l.requestFile !in s1.fs)
  {
  }
}
