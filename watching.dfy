/**
 * The watching storage: the registry of watched paths, the futures it
 * dispatches to, and the watch loop that turns directory events into polls.
 * The tasks behind the futures are outside the model; what they answer is
 * given by `TaskAnswers`.
 */
module Watching {
  import opened Wrappers
  import opened Files
  import opened Tasks
  import opened Registry
  import opened Futures

  /**
   * What the tasks answer: the reply of the `n`-th call of future `id`'s
   * task `poll`, and the answer of the `n`-th call of its `abort` (both
   * counting from 0).  Every call asks afresh, so a task may refuse one
   * abort and accept the next.
   */
  datatype TaskAnswers<!V> = TaskAnswers(poll: (FutureId, nat) -> Reply<V>, abort: (FutureId, nat) -> AbortReply)

  /** What the watch service delivers: a timeout, an overflow, or a created or deleted path. */
  datatype Event = Timeout | Overflow | PathEvent(path: Path)

  /**
   * The path may be registered to this future: it watches it and is either
   * pending or failed as a duplicate while registering, before it was ever
   * polled or aborted.  A future that fails later unregisters itself.
   */
  predicate MayOwn<V>(f: TaskFuture<V>, p: Path) {
    && f.mode.WatchMode? && p in f.paths
    && (f.status.Pending? || (f.status.Failed? && f.polls == 0 && f.aborts == 0))
  }

  /**
   * Every entry maps to a known watching future that may own it, and a
   * pending watching future owns all of its paths.
   */
  ghost predicate Consistent<V>(tasks: Registry, futures: map<FutureId, TaskFuture<V>>, nextId: FutureId) {
    && (forall id :: id in futures ==> id < nextId)
    && (forall p :: p in tasks ==> tasks[p] in futures && MayOwn(futures[tasks[p]], p))
    && (forall id, p ::
          id in futures && futures[id].mode.WatchMode? && futures[id].status.Pending? && p in futures[id].paths
          ==> p in tasks && tasks[p] == id)
  }

  /** The status registration leaves a future in, given the first clash it met. */
  function DuplicateStatus<V>(clash: Option<Path>): Status<V> {
    if clash.None? then Pending else Failed(Duplicate(clash.value))
  }

  /**
   * The future `new TaskFuture(task)` makes: watching (and failed as a
   * duplicate if registering its paths clashed) or polling with one run
   * scheduled.
   */
  function Created<V>(canWatch: bool, paths: seq<Path>, tasks: Registry): (f: TaskFuture<V>)
    ensures f.paths == paths && f.polls == 0 && f.aborts == 0
    ensures f.mode.WatchMode? == canWatch && (f.mode.PollMode? ==> f.mode.schedules == 1)
    // A new future is pending unless registering its paths clashed, which fails it.
    ensures f.status.Pending? || f.status.Failed?
    ensures f.status.Pending? <==> !canWatch || forall k :: 0 <= k < |paths| ==> !Clashes(tasks, paths, k)
  {
    FirstClashNone(tasks, paths);
    if canWatch then TaskFuture(paths, WatchMode, DuplicateStatus(FirstClash(tasks, paths)), 0, 0)
    else TaskFuture(paths, PollMode(1), Pending, 0, 0)
  }

  /** Registering a new watching future keeps the registry consistent. */
  lemma RegisterKeepsConsistent<V>(tasks: Registry, futures: map<FutureId, TaskFuture<V>>, id: FutureId, paths: seq<Path>,
                                   clash: Option<Path>, m: Registry, fs: map<FutureId, TaskFuture<V>>)
    requires Consistent(tasks, futures, id)
    requires clash == FirstClash(tasks, paths) && m == Registered(tasks, paths, id)
    requires fs == futures[id := TaskFuture(paths, WatchMode, DuplicateStatus(clash), 0, 0)]
    ensures Consistent(m, fs, id + 1)
  {
    EntriesStayOwned(tasks, futures, id, paths, clash, m, fs);
    PendingStaysRegistered(tasks, futures, id, paths, clash, m, fs);
  }

  /** A new polling future owns nothing, so adding it keeps the registry consistent. */
  lemma AddPollingKeepsConsistent<V>(tasks: Registry, futures: map<FutureId, TaskFuture<V>>, id: FutureId, paths: seq<Path>,
                                     fs: map<FutureId, TaskFuture<V>>)
    requires Consistent(tasks, futures, id)
    requires fs == futures[id := TaskFuture(paths, PollMode(1), Pending, 0, 0)]
    ensures Consistent(tasks, fs, id + 1)
  {
    forall p | p in tasks ensures tasks[p] in fs && MayOwn(fs[tasks[p]], p) {
      assert tasks[p] in futures && tasks[p] != id;
    }
  }

  lemma EntriesStayOwned<V>(tasks: Registry, futures: map<FutureId, TaskFuture<V>>, id: FutureId, paths: seq<Path>,
                            clash: Option<Path>, m: Registry, fs: map<FutureId, TaskFuture<V>>)
    requires Consistent(tasks, futures, id)
    requires m == Registered(tasks, paths, id)
    requires fs == futures[id := TaskFuture(paths, WatchMode, DuplicateStatus(clash), 0, 0)]
    ensures forall other :: other in fs ==> other < id + 1
    ensures forall p :: p in m ==> m[p] in fs && MayOwn(fs[m[p]], p)
  {
    RegisteredEntries(tasks, paths, id);
    forall p | p in m ensures m[p] in fs && MayOwn(fs[m[p]], p) {
      if p in tasks {
        assert tasks[p] in futures;
      }
    }
  }

  lemma PendingStaysRegistered<V>(tasks: Registry, futures: map<FutureId, TaskFuture<V>>, id: FutureId, paths: seq<Path>,
                                  clash: Option<Path>, m: Registry, fs: map<FutureId, TaskFuture<V>>)
    requires Consistent(tasks, futures, id)
    requires clash == FirstClash(tasks, paths) && m == Registered(tasks, paths, id)
    requires fs == futures[id := TaskFuture(paths, WatchMode, DuplicateStatus(clash), 0, 0)]
    ensures forall other, p ::
      other in fs && fs[other].mode.WatchMode? && fs[other].status.Pending? && p in fs[other].paths
      ==> p in m && m[p] == other
  {
    RegisteredEntries(tasks, paths, id);
    forall other, p | other in fs && fs[other].mode.WatchMode? && fs[other].status.Pending? && p in fs[other].paths
      ensures p in m && m[p] == other
    {
      if other == id {
        FirstClashNone(tasks, paths);
        var k :| 0 <= k < |paths| && paths[k] == p;
        assert !Clashes(tasks, paths, k);
      }
    }
  }

  /** Updating a pending future without touching its paths, its kind of mode or its status keeps the registry consistent. */
  lemma SameStatusKeepsConsistent<V>(t: Registry, f: map<FutureId, TaskFuture<V>>, n: FutureId, id: FutureId, g: TaskFuture<V>)
    requires Consistent(t, f, n) && id in f && g.status.Pending?
    requires g.paths == f[id].paths && g.mode.WatchMode? == f[id].mode.WatchMode? && g.status == f[id].status
    ensures Consistent(t, f[id := g], n)
  {
  }

  /** Unregistering a future frees every path it owned: no entry maps to it any more. */
  lemma ReleaseFreesPaths<V>(t: Registry, f: map<FutureId, TaskFuture<V>>, n: FutureId, id: FutureId)
    requires Consistent(t, f, n) && id in f
    ensures forall p :: p in Unregistered(t, f[id].paths, id) ==> Unregistered(t, f[id].paths, id)[p] != id
  {
    var u := Unregistered(t, f[id].paths, id);
    UnregisteredEntries(t, f[id].paths, id);
    forall p | p in u ensures u[p] != id {
      assert MayOwn(f[t[p]], p);
    }
  }

  /** Finishing a future and unregistering its paths keeps the registry consistent. */
  lemma ReleaseKeepsConsistent<V>(t: Registry, f: map<FutureId, TaskFuture<V>>, n: FutureId, id: FutureId, g: TaskFuture<V>)
    requires Consistent(t, f, n) && id in f
    requires g.paths == f[id].paths && g.status.IsDone()
    ensures Consistent(Unregistered(t, f[id].paths, id), f[id := g], n)
  {
    var u := Unregistered(t, f[id].paths, id);
    var h := f[id := g];
    UnregisteredEntries(t, f[id].paths, id);
    forall q | q in u ensures u[q] in h && MayOwn(h[u[q]], q) {
      assert u[q] == t[q] && MayOwn(f[t[q]], q);
      assert t[q] != id;
    }
    forall other, p | other in h && h[other].mode.WatchMode? && h[other].status.Pending? && p in h[other].paths
      ensures p in u && u[p] == other
    {
      assert other != id && t[p] == other;
    }
  }

  /** Taking `p` out of the paths still to visit adds it to the paths visited. */
  lemma VisitOneMore(keys: set<Path>, pending: set<Path>, p: Path)
    requires p in pending && pending <= keys
    ensures keys - (pending - {p}) == (keys - pending) + {p}
  {
  }

  /**
   * What a round of polls keeps, relative to the registry `t0` and the
   * futures `f0` it started from: no future appears or loses its paths,
   * entries only disappear, poll counts only grow, a future that changed was
   * a pending watching future that has been polled since and now has the
   * status (and the extra abort on failure) its task's last poll reply
   * decides, and an entry is gone only once its owner finished.
   */
  ghost predicate PollRound<V>(t0: Registry, f0: map<FutureId, TaskFuture<V>>, t: Registry, f: map<FutureId, TaskFuture<V>>,
                               answers: TaskAnswers<V>) {
    && f.Keys == f0.Keys
    && (forall p :: p in t0 ==> t0[p] in f0)
    && (forall p :: p in t ==> p in t0 && t[p] == t0[p])
    && (forall id :: id in f0 ==> PolledFuture(id, f0[id], f[id], answers))
    && (forall p :: p in t0 && p !in t ==> f[t0[p]].status.IsDone())
  }

  /**
   * Future `id` went from `g0` to `g` by polls alone: the same paths, no
   * fewer polls, and if it changed at all, it was a pending watching future
   * that has been polled since, keeps its mode, and has the status (and the
   * extra abort on failure) its task's last poll reply decides.
   */
  ghost predicate PolledFuture<V>(id: FutureId, g0: TaskFuture<V>, g: TaskFuture<V>, answers: TaskAnswers<V>) {
    && g.paths == g0.paths && g.polls >= g0.polls
    && (g != g0 ==>
          && g0.mode.WatchMode? && g0.status.Pending? && g.polls > g0.polls && g.mode == g0.mode
          && g.status == AfterPoll(g0, answers.poll(id, g.polls - 1)).status
          && g.aborts == g0.aborts + (if g.status.Failed? then 1 else 0))
  }

  /** Polls after polls are polls. */
  lemma PolledFutureTransitive<V>(id: FutureId, g0: TaskFuture<V>, g1: TaskFuture<V>, g2: TaskFuture<V>, answers: TaskAnswers<V>)
    requires PolledFuture(id, g0, g1, answers) && PolledFuture(id, g1, g2, answers)
    ensures PolledFuture(id, g0, g2, answers)
  {
    if g1 != g0 && g2 != g1 {
      // Polled in both stretches: still pending in between, so the later reply decides.
      assert g1.status.Pending? && g1.aborts == g0.aborts;
      PolledAgain(g0, g1, answers.poll(id, g2.polls - 1));
    }
  }

  /**
   * A round of polls only ever polls: no future is cancelled by it, and one
   * whose task's last reply was a value is done with that value.
   */
  lemma PollRoundOnlyPolls<V>(t0: Registry, f0: map<FutureId, TaskFuture<V>>, t: Registry, f: map<FutureId, TaskFuture<V>>,
                              answers: TaskAnswers<V>, id: FutureId)
    requires PollRound(t0, f0, t, f, answers) && id in f0
    ensures f[id].status.Cancelled? ==> f0[id].status.Cancelled?
    ensures f[id] != f0[id] && answers.poll(id, f[id].polls - 1).Value? ==>
      f[id].status == Done(answers.poll(id, f[id].polls - 1).value)
  {
  }

  /**
   * Every entry left after a round belongs to a future that was there at its
   * start and that the round either left alone or left pending: a future the
   * round finished owns no entry any more.
   */
  ghost predicate FinishedReleased<V>(f0: map<FutureId, TaskFuture<V>>, t: Registry, f: map<FutureId, TaskFuture<V>>) {
    forall p :: p in t ==> t[p] in f0 && t[p] in f && (f[t[p]] == f0[t[p]] || f[t[p]].status.Pending?)
  }

  /** A consistent registry after a round of polls keeps no future the round finished. */
  lemma PollRoundReleases<V>(t0: Registry, f0: map<FutureId, TaskFuture<V>>, t: Registry, f: map<FutureId, TaskFuture<V>>,
                             n: FutureId, answers: TaskAnswers<V>)
    requires PollRound(t0, f0, t, f, answers) && Consistent(t, f, n)
    ensures FinishedReleased(f0, t, f)
  {
    forall p | p in t ensures t[p] in f0 && t[p] in f && (f[t[p]] == f0[t[p]] || f[t[p]].status.Pending?) {
      var id := t[p];
      // Polled in the round, so a failure now would not be allowed to own `p`.
      assert t0[p] == id && PolledFuture(id, f0[id], f[id], answers) && MayOwn(f[id], p);
    }
  }

  /** Every future that owned one of `keys` in `t0` and was pending then has been polled since. */
  ghost predicate PolledOwners<V>(t0: Registry, f0: map<FutureId, TaskFuture<V>>, f: map<FutureId, TaskFuture<V>>, keys: set<Path>) {
    forall p :: p in keys && p in t0 && t0[p] in f0 && t0[p] in f && f0[t0[p]].status.Pending? ==> f[t0[p]].polls > f0[t0[p]].polls
  }

  /** A round of polls that has not started yet keeps everything. */
  lemma PollRoundStart<V>(t: Registry, f: map<FutureId, TaskFuture<V>>, n: FutureId, answers: TaskAnswers<V>)
    requires Consistent(t, f, n)
    ensures PollRound(t, f, t, f, answers) && PolledOwners(t, f, f, {})
  {
  }

  /** Two rounds of polls in a row make one round. */
  lemma PollRoundTransitive<V>(t0: Registry, f0: map<FutureId, TaskFuture<V>>, t1: Registry, f1: map<FutureId, TaskFuture<V>>,
                               t2: Registry, f2: map<FutureId, TaskFuture<V>>, answers: TaskAnswers<V>)
    requires PollRound(t0, f0, t1, f1, answers) && PollRound(t1, f1, t2, f2, answers)
    ensures PollRound(t0, f0, t2, f2, answers)
  {
    forall id | id in f0 ensures PolledFuture(id, f0[id], f2[id], answers) {
      PolledFutureTransitive(id, f0[id], f1[id], f2[id], answers);
    }
    forall p | p in t0 && p !in t2
      ensures f2[t0[p]].status.IsDone()
    {
      var id := t0[p];
      if p in t1 {
        assert t1[p] == id;
      } else {
        // Finished in the first round, so the second left it alone.
        assert f1[id].status.IsDone() && PolledFuture(id, f1[id], f2[id], answers);
      }
    }
  }

  /** What a poll does to the status of a pending future depends only on the reply. */
  lemma PolledAgain<V>(g0: TaskFuture<V>, g: TaskFuture<V>, reply: Reply<V>)
    requires g0.status.Pending? && g.status.Pending?
    ensures AfterPoll(g, reply).status == AfterPoll(g0, reply).status
  {
  }

  /** Owners polled earlier in a round stay polled. */
  lemma PolledOwnersKept<V>(t0: Registry, f0: map<FutureId, TaskFuture<V>>, t1: Registry, f1: map<FutureId, TaskFuture<V>>,
                            t2: Registry, f2: map<FutureId, TaskFuture<V>>, answers: TaskAnswers<V>, keys: set<Path>)
    requires PollRound(t0, f0, t1, f1, answers) && PollRound(t1, f1, t2, f2, answers) && PolledOwners(t0, f0, f1, keys)
    ensures PolledOwners(t0, f0, f2, keys)
  {
  }

  /** `WatchTask.poll(path)` is a round of polls. */
  lemma PollPathIsRound<V>(t: Registry, f: map<FutureId, TaskFuture<V>>, p: Path, answers: TaskAnswers<V>,
                           t1: Registry, f1: map<FutureId, TaskFuture<V>>)
    requires forall q :: q in t ==> t[q] in f && MayOwn(f[t[q]], q)
    requires p !in t ==> t1 == t && f1 == f
    requires p in t ==>
      var id := t[p]; var reply := answers.poll(id, f[id].polls);
      && f1 == f[id := AfterPoll(f[id], reply)]
      && t1 == (if ReleasedByPoll(f[id], reply) then Unregistered(t, f[id].paths, id) else t)
    ensures PollRound(t, f, t1, f1, answers)
  {
    if p in t {
      var id := t[p];
      UnregisteredEntries(t, f[id].paths, id);
      assert PolledFuture(id, f[id], f1[id], answers);
      forall q | q in t && q !in t1
        ensures f1[t[q]].status.IsDone()
      {
        assert t[q] == id;
      }
    }
  }

  /** Polling `p` polls the owner it had at the start of the round, unless that owner had been polled already. */
  lemma PollPathPolls<V>(t0: Registry, f0: map<FutureId, TaskFuture<V>>, t: Registry, f: map<FutureId, TaskFuture<V>>,
                         p: Path, answers: TaskAnswers<V>, t1: Registry, f1: map<FutureId, TaskFuture<V>>)
    requires PollRound(t0, f0, t, f, answers) && PollRound(t, f, t1, f1, answers)
    requires p in t ==> f1[t[p]] == AfterPoll(f[t[p]], answers.poll(t[p], f[t[p]].polls))
    ensures PolledOwners(t0, f0, f1, {p})
  {
    if p in t0 && f0[t0[p]].status.Pending? && p in t {
      assert t[p] == t0[p];
    }
  }

  /** Owners polled for two sets of paths are polled for their union. */
  lemma PolledOwnersUnion<V>(t0: Registry, f0: map<FutureId, TaskFuture<V>>, f: map<FutureId, TaskFuture<V>>,
                             keys: set<Path>, more: set<Path>)
    requires PolledOwners(t0, f0, f, keys) && PolledOwners(t0, f0, f, more)
    ensures PolledOwners(t0, f0, f, keys + more)
  {
  }

  /** One visit of the polling loop: the round goes on and the owner `p` had at its start has been polled. */
  lemma PollPathStep<V>(t0: Registry, f0: map<FutureId, TaskFuture<V>>, t: Registry, f: map<FutureId, TaskFuture<V>>,
                        p: Path, answers: TaskAnswers<V>, t1: Registry, f1: map<FutureId, TaskFuture<V>>, polled: set<Path>)
    requires PollRound(t0, f0, t, f, answers) && PolledOwners(t0, f0, f, polled)
    requires forall q :: q in t ==> t[q] in f && MayOwn(f[t[q]], q)
    requires p !in t ==> t1 == t && f1 == f
    requires p in t ==>
      var id := t[p]; var reply := answers.poll(id, f[id].polls);
      && f1 == f[id := AfterPoll(f[id], reply)]
      && t1 == (if ReleasedByPoll(f[id], reply) then Unregistered(t, f[id].paths, id) else t)
    ensures PollRound(t0, f0, t1, f1, answers) && PolledOwners(t0, f0, f1, polled + {p})
  {
    PollPathIsRound(t, f, p, answers, t1, f1);
    PollRoundTransitive(t0, f0, t, f, t1, f1, answers);
    PolledOwnersKept(t0, f0, t, f, t1, f1, answers, polled);
    PollPathPolls(t0, f0, t, f, p, answers, t1, f1);
    PolledOwnersUnion(t0, f0, f1, polled, {p});
  }

  /**
   * What a round of cancels keeps, relative to `t0` and `f0`: no future
   * appears, loses its paths or mode, or is polled; entries only disappear;
   * a future that changed was a pending watching future, has been asked to
   * abort since, and now has the status its task's last abort answer
   * decides; and an entry is gone only once its owner finished.
   */
  ghost predicate CancelRound<V>(t0: Registry, f0: map<FutureId, TaskFuture<V>>, t: Registry, f: map<FutureId, TaskFuture<V>>,
                                 answers: TaskAnswers<V>) {
    && f.Keys == f0.Keys
    && (forall p :: p in t0 ==> t0[p] in f0)
    && (forall p :: p in t ==> p in t0 && t[p] == t0[p])
    && (forall id :: id in f0 ==> CancelledFuture(id, f0[id], f[id], answers))
    && (forall p :: p in t0 && p !in t ==> f[t0[p]].status.IsDone())
  }

  /**
   * Future `id` went from `g0` to `g` by cancels alone: the same paths,
   * polls and mode, and if it changed at all, it was a pending watching
   * future that has been asked to abort since and has the status its task's
   * last abort answer decides.
   */
  ghost predicate CancelledFuture<V>(id: FutureId, g0: TaskFuture<V>, g: TaskFuture<V>, answers: TaskAnswers<V>) {
    && g.paths == g0.paths && g.polls == g0.polls && g.mode == g0.mode
    && (g != g0 ==>
          && g0.mode.WatchMode? && g0.status.Pending? && g.aborts > g0.aborts
          && g.status == AfterCancel(g0, answers.abort(id, g.aborts - 1)).status)
  }

  /** Cancels after cancels are cancels. */
  lemma CancelledFutureTransitive<V>(id: FutureId, g0: TaskFuture<V>, g1: TaskFuture<V>, g2: TaskFuture<V>, answers: TaskAnswers<V>)
    requires CancelledFuture(id, g0, g1, answers) && CancelledFuture(id, g1, g2, answers)
    ensures CancelledFuture(id, g0, g2, answers)
  {
    if g1 != g0 && g2 != g1 {
      // Asked in both stretches: still pending in between, so the later answer decides.
      CancelledAgain(g0, g1, answers.abort(id, g2.aborts - 1));
    }
  }

  /**
   * Every future that owned one of `keys` in `t0` and was pending then has
   * been asked to abort, and is finished exactly when its task's last abort
   * answer lets `cancel` succeed.
   */
  ghost predicate CancelledOwners<V>(t0: Registry, f0: map<FutureId, TaskFuture<V>>, f: map<FutureId, TaskFuture<V>>,
                                     answers: TaskAnswers<V>, keys: set<Path>) {
    forall p :: p in keys && p in t0 && t0[p] in f0 && t0[p] in f && f0[t0[p]].status.Pending? ==>
      && f[t0[p]].aborts > f0[t0[p]].aborts
      && (f[t0[p]].status.IsDone() <==> CancelSucceeds(f0[t0[p]], answers.abort(t0[p], f[t0[p]].aborts - 1)))
  }

  /** A round of cancels that has not started yet keeps everything. */
  lemma CancelRoundStart<V>(t: Registry, f: map<FutureId, TaskFuture<V>>, n: FutureId, answers: TaskAnswers<V>)
    requires Consistent(t, f, n)
    ensures CancelRound(t, f, t, f, answers) && CancelledOwners(t, f, f, answers, {})
  {
  }

  /** Two rounds of cancels in a row make one round. */
  lemma CancelRoundTransitive<V>(t0: Registry, f0: map<FutureId, TaskFuture<V>>, t1: Registry, f1: map<FutureId, TaskFuture<V>>,
                                 t2: Registry, f2: map<FutureId, TaskFuture<V>>, answers: TaskAnswers<V>)
    requires CancelRound(t0, f0, t1, f1, answers) && CancelRound(t1, f1, t2, f2, answers)
    ensures CancelRound(t0, f0, t2, f2, answers)
  {
    forall id | id in f0 ensures CancelledFuture(id, f0[id], f2[id], answers) {
      CancelledFutureTransitive(id, f0[id], f1[id], f2[id], answers);
    }
    forall p | p in t0 && p !in t2
      ensures f2[t0[p]].status.IsDone()
    {
      var id := t0[p];
      if p in t1 {
        assert t1[p] == id;
      } else {
        // Finished in the first round, so the second left it alone.
        assert f1[id].status.IsDone() && CancelledFuture(id, f1[id], f2[id], answers);
      }
    }
  }

  /** A consistent registry after a round of cancels keeps no future the round finished. */
  lemma CancelRoundReleases<V>(t0: Registry, f0: map<FutureId, TaskFuture<V>>, t: Registry, f: map<FutureId, TaskFuture<V>>,
                               n: FutureId, answers: TaskAnswers<V>)
    requires CancelRound(t0, f0, t, f, answers) && Consistent(t, f, n)
    ensures FinishedReleased(f0, t, f)
  {
    forall p | p in t ensures t[p] in f0 && t[p] in f && (f[t[p]] == f0[t[p]] || f[t[p]].status.Pending?) {
      var id := t[p];
      // Asked to abort in the round, so a failure now would not be allowed to own `p`.
      assert t0[p] == id && CancelledFuture(id, f0[id], f[id], answers) && MayOwn(f[id], p);
    }
  }

  /** Owners decided earlier in a round stay decided. */
  lemma CancelledOwnersKept<V>(t0: Registry, f0: map<FutureId, TaskFuture<V>>, t1: Registry, f1: map<FutureId, TaskFuture<V>>,
                               t2: Registry, f2: map<FutureId, TaskFuture<V>>, answers: TaskAnswers<V>, keys: set<Path>)
    requires CancelRound(t0, f0, t1, f1, answers) && CancelRound(t1, f1, t2, f2, answers)
    requires CancelledOwners(t0, f0, f1, answers, keys)
    ensures CancelledOwners(t0, f0, f2, answers, keys)
  {
    forall p | p in keys && p in t0 && t0[p] in f0 && t0[p] in f2 && f0[t0[p]].status.Pending?
      ensures f2[t0[p]].aborts > f0[t0[p]].aborts
      ensures f2[t0[p]].status.IsDone() <==> CancelSucceeds(f0[t0[p]], answers.abort(t0[p], f2[t0[p]].aborts - 1))
    {
      var id := t0[p];
      assert f1[id].aborts > f0[id].aborts;
      assert CancelledFuture(id, f1[id], f2[id], answers);
      if f2[id] != f1[id] {
        // Asked again in the second round, so the later answer decides.
        var answer := answers.abort(id, f2[id].aborts - 1);
        CancelledAgain(f0[id], f1[id], answer);
      } else {
        assert f2[id] == f1[id];
      }
    }
  }

  /** What a cancel does to the status of a pending future depends only on the abort answer. */
  lemma CancelledAgain<V>(g0: TaskFuture<V>, g: TaskFuture<V>, answer: AbortReply)
    requires g0.status.Pending? && g.status.Pending?
    ensures AfterCancel(g, answer).status == AfterCancel(g0, answer).status
    ensures AfterCancel(g, answer).status.IsDone() <==> CancelSucceeds(g0, answer)
  {
  }

  /** Cancelling the owner of `p`, if it has one, is a round of cancels. */
  lemma CancelPathIsRound<V>(t: Registry, f: map<FutureId, TaskFuture<V>>, p: Path, answers: TaskAnswers<V>,
                             t1: Registry, f1: map<FutureId, TaskFuture<V>>)
    requires forall q :: q in t ==> t[q] in f && MayOwn(f[t[q]], q)
    requires p !in t ==> t1 == t && f1 == f
    requires p in t ==>
      var id := t[p]; var answer := answers.abort(id, f[id].aborts);
      && f1 == f[id := AfterCancel(f[id], answer)]
      && t1 == (if CancelSucceeds(f[id], answer) then Unregistered(t, f[id].paths, id) else t)
    ensures CancelRound(t, f, t1, f1, answers)
  {
    if p in t {
      var id := t[p];
      UnregisteredEntries(t, f[id].paths, id);
      assert CancelledFuture(id, f[id], f1[id], answers);
      forall q | q in t && q !in t1
        ensures f1[t[q]].status.IsDone()
      {
        assert t[q] == id;
      }
    }
  }

  /** Cancelling `p` decides the owner it had at the start of the round, unless that owner was decided already. */
  lemma CancelPathDecides<V>(t0: Registry, f0: map<FutureId, TaskFuture<V>>, t: Registry, f: map<FutureId, TaskFuture<V>>,
                             p: Path, answers: TaskAnswers<V>, t1: Registry, f1: map<FutureId, TaskFuture<V>>)
    requires CancelRound(t0, f0, t, f, answers)
    requires p !in t ==> f1 == f
    requires p in t ==> t[p] in f1 && f1[t[p]] == AfterCancel(f[t[p]], answers.abort(t[p], f[t[p]].aborts))
    ensures CancelledOwners(t0, f0, f1, answers, {p})
  {
    forall q | q in {p} && q in t0 && t0[q] in f0 && t0[q] in f1 && f0[t0[q]].status.Pending?
      ensures f1[t0[q]].aborts > f0[t0[q]].aborts
      ensures f1[t0[q]].status.IsDone() <==> CancelSucceeds(f0[t0[q]], answers.abort(t0[q], f1[t0[q]].aborts - 1))
    {
      assert q == p;
      var id := t0[p];
      if p in t {
        assert t[p] == id;
      } else {
        // Its entry went earlier in the round, so it is finished.
        assert f[id].status.IsDone();
      }
      OwnerDecided(id, f0[id], f[id], f1[id], answers);
    }
  }

  /**
   * A future pending at the start of a round of cancels, and asked once more
   * now unless it finished earlier in the round, is decided by its last
   * abort answer.
   */
  lemma OwnerDecided<V>(id: FutureId, g0: TaskFuture<V>, g: TaskFuture<V>, g1: TaskFuture<V>, answers: TaskAnswers<V>)
    requires g0.status.Pending? && CancelledFuture(id, g0, g, answers)
    requires g1 == AfterCancel(g, answers.abort(id, g.aborts)) || (g.status.IsDone() && g1 == g)
    ensures g1.aborts > g0.aborts
    ensures g1.status.IsDone() <==> CancelSucceeds(g0, answers.abort(id, g1.aborts - 1))
  {
    if g.status.Pending? {
      // Asked now: its last answer is the one just given.
      assert g.aborts >= g0.aborts;
      CancelledAgain(g0, g, answers.abort(id, g.aborts));
    } else {
      // Finished earlier in the round, by an answer that let `cancel` succeed.
      assert g != g0;
    }
  }

  /** Owners decided for two sets of paths are decided for their union. */
  lemma CancelledOwnersUnion<V>(t0: Registry, f0: map<FutureId, TaskFuture<V>>, f: map<FutureId, TaskFuture<V>>,
                                answers: TaskAnswers<V>, keys: set<Path>, more: set<Path>)
    requires CancelledOwners(t0, f0, f, answers, keys) && CancelledOwners(t0, f0, f, answers, more)
    ensures CancelledOwners(t0, f0, f, answers, keys + more)
  {
  }

  /** One visit of the cancelling loop: the round goes on and the owner `p` had at its start is decided. */
  lemma CancelPathStep<V>(t0: Registry, f0: map<FutureId, TaskFuture<V>>, t: Registry, f: map<FutureId, TaskFuture<V>>,
                          p: Path, answers: TaskAnswers<V>, t1: Registry, f1: map<FutureId, TaskFuture<V>>, decided: set<Path>)
    requires CancelRound(t0, f0, t, f, answers) && CancelledOwners(t0, f0, f, answers, decided)
    requires forall q :: q in t ==> t[q] in f && MayOwn(f[t[q]], q)
    requires p !in t ==> t1 == t && f1 == f
    requires p in t ==>
      var id := t[p]; var answer := answers.abort(id, f[id].aborts);
      && f1 == f[id := AfterCancel(f[id], answer)]
      && t1 == (if CancelSucceeds(f[id], answer) then Unregistered(t, f[id].paths, id) else t)
    ensures CancelRound(t0, f0, t1, f1, answers) && CancelledOwners(t0, f0, f1, answers, decided + {p})
  {
    CancelPathIsRound(t, f, p, answers, t1, f1);
    CancelRoundTransitive(t0, f0, t, f, t1, f1, answers);
    CancelledOwnersKept(t0, f0, t, f, t1, f1, answers, decided);
    CancelPathDecides(t0, f0, t, f, p, answers, t1, f1);
    CancelledOwnersUnion(t0, f0, f1, answers, decided, {p});
  }

  /** After a full round of cancels, a registered future is still pending only if its task refused the last abort. */
  lemma CancelRoundLeavesRefusers<V>(t0: Registry, f0: map<FutureId, TaskFuture<V>>, t: Registry, f: map<FutureId, TaskFuture<V>>,
                                     answers: TaskAnswers<V>)
    requires CancelRound(t0, f0, t, f, answers) && CancelledOwners(t0, f0, f, answers, t0.Keys)
    ensures forall p :: p in t ==> t[p] in f
    ensures forall p :: p in t && f[t[p]].status.Pending? ==>
      f[t[p]].aborts > 0 && answers.abort(t[p], f[t[p]].aborts - 1) == Returned(false)
  {
    forall p | p in t && f[t[p]].status.Pending?
      ensures f[t[p]].aborts > 0 && answers.abort(t[p], f[t[p]].aborts - 1) == Returned(false)
    {
      assert t[p] == t0[p] && p in t0.Keys;
    }
  }

  /**
   * Polls followed by cancels: no future appears or loses its paths, entries
   * only disappear, a finished future is untouched, and the cancels keep the
   * poll counts the polls reached.
   */
  lemma PollsThenCancels<V>(t0: Registry, f0: map<FutureId, TaskFuture<V>>, t1: Registry, f1: map<FutureId, TaskFuture<V>>,
                            t2: Registry, f2: map<FutureId, TaskFuture<V>>, answers: TaskAnswers<V>, keys: set<Path>)
    requires PollRound(t0, f0, t1, f1, answers) && CancelRound(t1, f1, t2, f2, answers)
    ensures f2.Keys == f0.Keys
    ensures forall p :: p in t2 ==> p in t0 && t2[p] == t0[p]
    ensures forall id :: id in f0 && f0[id].status.IsDone() ==> f2[id] == f0[id]
    ensures forall id :: id in f0 ==> f2[id].paths == f0[id].paths && f2[id].polls == f1[id].polls >= f0[id].polls
    ensures PolledOwners(t0, f0, f1, keys) ==> PolledOwners(t0, f0, f2, keys)
  {
    forall id | id in f0
      ensures f2[id].paths == f0[id].paths && f2[id].polls == f1[id].polls >= f0[id].polls
      ensures f0[id].status.IsDone() ==> f2[id] == f0[id]
    {
      assert PolledFuture(id, f0[id], f1[id], answers) && CancelledFuture(id, f1[id], f2[id], answers);
    }
  }

  /** Polls followed by cancels leave no entry to a future either of them finished. */
  lemma PollsThenCancelsRelease<V>(t0: Registry, f0: map<FutureId, TaskFuture<V>>, t1: Registry, f1: map<FutureId, TaskFuture<V>>,
                                   t2: Registry, f2: map<FutureId, TaskFuture<V>>, n: FutureId, answers: TaskAnswers<V>)
    requires PollRound(t0, f0, t1, f1, answers) && CancelRound(t1, f1, t2, f2, answers) && Consistent(t2, f2, n)
    ensures FinishedReleased(f0, t2, f2)
  {
    forall p | p in t2 ensures t2[p] in f0 && t2[p] in f2 && (f2[t2[p]] == f0[t2[p]] || f2[t2[p]].status.Pending?) {
      var id := t2[p];
      assert t1[p] == id && t0[p] == id;
      assert PolledFuture(id, f0[id], f1[id], answers) && CancelledFuture(id, f1[id], f2[id], answers) && MayOwn(f2[id], p);
    }
  }

  class WatchingStorage<V> {
    var tasks: Registry
    var futures: map<FutureId, TaskFuture<V>>
    var nextId: FutureId

    ghost predicate Valid()
      reads this
    {
      Consistent(tasks, futures, nextId)
    }

    constructor ()
      ensures Valid() && tasks == map[] && futures == map[] && nextId == 0
    {
      tasks := map[];
      futures := map[];
      nextId := 0;
    }

    /**
     * `new TaskFuture(task)`: a watchable task's paths are registered, and a
     * clash fails the new future as a duplicate; any other task is scheduled.
     */
    method Schedule(canWatch: bool, paths: seq<Path>) returns (id: FutureId)
      requires Valid()
      modifies this
      ensures Valid()
      ensures id == old(nextId) && id !in old(futures) && nextId == id + 1
      ensures futures == old(futures)[id := Created(canWatch, paths, old(tasks))]
      ensures tasks == if canWatch then Registered(old(tasks), paths, id) else old(tasks)
    {
      id := nextId;
      nextId := nextId + 1;
      if canWatch {
        futures := futures[id := TaskFuture(paths, WatchMode, Pending, 0, 0)];
        Register(id);
        RegisterKeepsConsistent(old(tasks), old(futures), id, paths, FirstClash(old(tasks), paths), tasks, futures);
      } else {
        futures := futures[id := TaskFuture(paths, PollMode(1), Pending, 0, 0)];
        AddPollingKeepsConsistent(tasks, old(futures), id, paths, futures);
      }
    }

    /** `register`: `putIfAbsent` of each path; the first clash fails the future. */
    method Register(id: FutureId)
      requires id in futures && futures[id].status.Pending?
      modifies this
      ensures nextId == old(nextId)
      ensures tasks == Registered(old(tasks), old(futures[id]).paths, id)
      ensures futures == old(futures)[id := old(futures[id]).(status := DuplicateStatus(FirstClash(old(tasks), old(futures[id]).paths)))]
    {
      var paths := futures[id].paths;
      var i := 0;
      while i < |paths|
        invariant 0 <= i <= |paths| && nextId == old(nextId)
        invariant tasks == Registered(old(tasks), paths[..i], id)
        invariant futures == old(futures)[id := old(futures[id]).(status := DuplicateStatus(FirstClash(old(tasks), paths[..i])))]
      {
        var p := paths[i];
        RegisterOneMore(old(tasks), paths, i, id);
        if p in tasks {
          // Only the first clash takes effect: a failed future stays failed.
          if futures[id].status.Pending? {
            futures := futures[id := futures[id].(status := Failed(Duplicate(p)))];
          }
        } else {
          tasks := tasks[p := id];
        }
        assert tasks == Registered(old(tasks), paths[..i + 1], id);
        assert futures[id].status == DuplicateStatus(FirstClash(old(tasks), paths[..i + 1]));
        i := i + 1;
      }
      assert paths[..|paths|] == paths;
    }

    /** `unregister`: removes each of the future's paths that still maps to it. */
    method Unregister(id: FutureId)
      requires id in futures
      modifies this
      ensures futures == old(futures) && nextId == old(nextId)
      ensures tasks == Unregistered(old(tasks), futures[id].paths, id)
    {
      var paths := futures[id].paths;
      var i := 0;
      while i < |paths|
        invariant 0 <= i <= |paths|
        invariant tasks == Unregistered(old(tasks), paths[..i], id)
        invariant futures == old(futures) && nextId == old(nextId)
      {
        var p := paths[i];
        UnregisterOneMore(old(tasks), paths, i, id);
        if p in tasks && tasks[p] == id {
          tasks := tasks - {p};
        }
        i := i + 1;
      }
      assert paths[..|paths|] == paths;
    }

    /** `TaskFuture.poll`. */
    method Poll(id: FutureId, answers: TaskAnswers<V>)
      requires Valid() && id in futures
      modifies this
      ensures Valid() && nextId == old(nextId)
      ensures var f := old(futures[id]); var reply := answers.poll(id, f.polls);
        && futures == old(futures)[id := AfterPoll(f, reply)]
        && tasks == (if ReleasedByPoll(f, reply) then Unregistered(old(tasks), f.paths, id) else old(tasks))
      ensures ReleasedByPoll(old(futures[id]), answers.poll(id, old(futures[id]).polls)) ==>
        forall p :: p in tasks ==> tasks[p] != id
    {
      var f := futures[id];
      if f.status.IsDone() {
        return;
      }
      var reply := answers.poll(id, f.polls);
      match reply {
        case Value(v) =>
          Unregister(id);
          futures := futures[id := f.(status := Done(v), polls := f.polls + 1)];
          ReleaseKeepsConsistent(old(tasks), old(futures), nextId, id, futures[id]);
          ReleaseFreesPaths(old(tasks), old(futures), nextId, id);
        case Thrown(e) =>
          // Its task is aborted first; what the abort answers is not looked at.
          var aborted := answers.abort(id, f.aborts);
          Unregister(id);
          futures := futures[id := f.(status := Failed(e), polls := f.polls + 1, aborts := f.aborts + 1)];
          ReleaseKeepsConsistent(old(tasks), old(futures), nextId, id, futures[id]);
          ReleaseFreesPaths(old(tasks), old(futures), nextId, id);
        case Null =>
          if f.mode.PollMode? {
            futures := futures[id := f.(mode := PollMode(f.mode.schedules + 1), polls := f.polls + 1)];
          } else {
            futures := futures[id := f.(polls := f.polls + 1)];
          }
          SameStatusKeepsConsistent(tasks, old(futures), nextId, id, futures[id]);
      }
    }

    /** `TaskFuture.cancel`. */
    method Cancel(id: FutureId, answers: TaskAnswers<V>) returns (cancelled: bool)
      requires Valid() && id in futures
      modifies this
      ensures Valid() && nextId == old(nextId)
      ensures var f := old(futures[id]); var answer := answers.abort(id, f.aborts);
        && cancelled == CancelSucceeds(f, answer)
        && futures == old(futures)[id := AfterCancel(f, answer)]
        && tasks == (if cancelled then Unregistered(old(tasks), f.paths, id) else old(tasks))
      ensures cancelled ==> forall p :: p in tasks ==> tasks[p] != id
    {
      var f := futures[id];
      if f.status.IsDone() {
        return false;
      }
      var answer := answers.abort(id, f.aborts);
      match answer {
        case Returned(ok) =>
          if !ok {
            futures := futures[id := f.(aborts := f.aborts + 1)];
            SameStatusKeepsConsistent(tasks, old(futures), nextId, id, futures[id]);
            return false;
          }
          futures := futures[id := f.(status := Cancelled, aborts := f.aborts + 1)];
        case AbortThrown(e) =>
          futures := futures[id := f.(status := Failed(e), aborts := f.aborts + 1)];
      }
      Unregister(id);
      ReleaseKeepsConsistent(old(tasks), old(futures), nextId, id, futures[id]);
      ReleaseFreesPaths(old(tasks), old(futures), nextId, id);
      cancelled := true;
    }

    /** `WatchTask.poll(path)`: polls the future watching `p`, if any. */
    method PollPath(p: Path, answers: TaskAnswers<V>)
      requires Valid()
      modifies this
      ensures Valid() && nextId == old(nextId)
      ensures p !in old(tasks) ==> tasks == old(tasks) && futures == old(futures)
      ensures p in old(tasks) ==>
        var id := old(tasks)[p]; var f := old(futures[id]); var reply := answers.poll(id, f.polls);
        && futures == old(futures)[id := AfterPoll(f, reply)]
        && tasks == (if ReleasedByPoll(f, reply) then Unregistered(old(tasks), f.paths, id) else old(tasks))
    {
      if p in tasks {
        Poll(tasks[p], answers);
      }
    }

    /** `WatchTask.pollAll`: polls the owner of every registered path, one path at a time. */
    method PollAll(answers: TaskAnswers<V>)
      requires Valid()
      modifies this
      ensures Valid() && nextId == old(nextId)
      ensures PollRound(old(tasks), old(futures), tasks, futures, answers)
      ensures PolledOwners(old(tasks), old(futures), futures, old(tasks).Keys)
      ensures FinishedReleased(old(futures), tasks, futures)
    {
      PollRoundStart(tasks, futures, nextId, answers);
      var pending := tasks.Keys;
      while pending != {}
        invariant Valid() && nextId == old(nextId)
        invariant pending <= old(tasks).Keys
        invariant PollRound(old(tasks), old(futures), tasks, futures, answers)
        invariant PolledOwners(old(tasks), old(futures), futures, old(tasks).Keys - pending)
        decreases pending
      {
        var p :| p in pending;
        ghost var t, f := tasks, futures;
        PollPath(p, answers);
        PollPathStep(old(tasks), old(futures), t, f, p, answers, tasks, futures, old(tasks).Keys - pending);
        VisitOneMore(old(tasks).Keys, pending, p);
        pending := pending - {p};
      }
      PollRoundReleases(old(tasks), old(futures), tasks, futures, nextId, answers);
    }

    /**
     * One step of the `finally` block of `WatchTask.run`: cancels the owner
     * of `p`, if it still has one.  The ghost parameters carry the round of
     * cancels this step continues.
     */
    method CancelPath(p: Path, answers: TaskAnswers<V>, ghost t0: Registry, ghost f0: map<FutureId, TaskFuture<V>>,
                      ghost decided: set<Path>)
      requires Valid()
      requires CancelRound(t0, f0, tasks, futures, answers) && CancelledOwners(t0, f0, futures, answers, decided)
      modifies this
      ensures Valid() && nextId == old(nextId)
      ensures CancelRound(t0, f0, tasks, futures, answers) && CancelledOwners(t0, f0, futures, answers, decided + {p})
      ensures FinishedReleased(f0, tasks, futures)
    {
      ghost var t, f := tasks, futures;
      if p in tasks {
        var cancelled := Cancel(tasks[p], answers);
      }
      CancelPathStep(t0, f0, t, f, p, answers, tasks, futures, decided);
      CancelRoundReleases(t0, f0, tasks, futures, nextId, answers);
    }

    /**
     * The `finally` block of `WatchTask.run`: cancels the owner of every
     * registered path, one path at a time.
     */
    method CancelAll(answers: TaskAnswers<V>)
      requires Valid()
      modifies this
      ensures Valid() && nextId == old(nextId)
      ensures CancelRound(old(tasks), old(futures), tasks, futures, answers)
      ensures CancelledOwners(old(tasks), old(futures), futures, answers, old(tasks).Keys)
      ensures FinishedReleased(old(futures), tasks, futures)
    {
      CancelRoundStart(tasks, futures, nextId, answers);
      var pending := tasks.Keys;
      while pending != {}
        invariant Valid() && nextId == old(nextId)
        invariant pending <= old(tasks).Keys
        invariant CancelRound(old(tasks), old(futures), tasks, futures, answers)
        invariant CancelledOwners(old(tasks), old(futures), futures, answers, old(tasks).Keys - pending)
        decreases pending
      {
        var p :| p in pending;
        CancelPath(p, answers, old(tasks), old(futures), old(tasks).Keys - pending);
        VisitOneMore(old(tasks).Keys, pending, p);
        pending := pending - {p};
      }
      CancelRoundReleases(old(tasks), old(futures), tasks, futures, nextId, answers);
    }

    /**
     * `WatchTask.run`: if the watch service could be set up (`watching`),
     * polls everything once and then handles the events in order (a timeout
     * or an overflow polls everything, a path event polls that path's owner);
     * finally, however it ended, it cancels the owner of every registered path.
     */
    /** The watching part of the loop: a first poll of everything, then one poll per event. */
    method Watch(events: seq<Event>, answers: TaskAnswers<V>)
      requires Valid()
      modifies this
      ensures Valid() && nextId == old(nextId)
      ensures PollRound(old(tasks), old(futures), tasks, futures, answers)
      ensures PolledOwners(old(tasks), old(futures), futures, old(tasks).Keys)
    {
      PollAll(answers);
      for i := 0 to |events|
        invariant Valid() && nextId == old(nextId)
        invariant PollRound(old(tasks), old(futures), tasks, futures, answers)
        invariant PolledOwners(old(tasks), old(futures), futures, old(tasks).Keys)
      {
        ghost var t, f := tasks, futures;
        match events[i] {
          case PathEvent(p) =>
            PollPath(p, answers);
            PollPathIsRound(t, f, p, answers, tasks, futures);
          case _ =>
            PollAll(answers);
        }
        PollRoundTransitive(old(tasks), old(futures), t, f, tasks, futures, answers);
        PolledOwnersKept(old(tasks), old(futures), t, f, tasks, futures, answers, old(tasks).Keys);
      }
    }

    method Run(watching: bool, events: seq<Event>, answers: TaskAnswers<V>)
      requires Valid()
      modifies this
      ensures Valid() && nextId == old(nextId)
      ensures futures.Keys == old(futures).Keys
      ensures forall p :: p in tasks ==> p in old(tasks) && tasks[p] == old(tasks)[p]
      ensures forall id :: id in old(futures) && old(futures)[id].status.IsDone() ==> futures[id] == old(futures)[id]
      ensures forall id :: id in old(futures) ==> futures[id].paths == old(futures)[id].paths
      ensures forall id :: id in old(futures) ==> futures[id].polls >= old(futures)[id].polls
      ensures !watching ==> forall id :: id in old(futures) ==> futures[id].polls == old(futures)[id].polls
      ensures watching ==> PolledOwners(old(tasks), old(futures), futures, old(tasks).Keys)
      ensures FinishedReleased(old(futures), tasks, futures)
      ensures forall p :: p in tasks && futures[tasks[p]].status.Pending? ==>
        futures[tasks[p]].aborts > 0 && answers.abort(tasks[p], futures[tasks[p]].aborts - 1) == Returned(false)
    {
      if watching {
        Watch(events, answers);
      } else {
        PollRoundStart(tasks, futures, nextId, answers);
      }
      ghost var t, f := tasks, futures;
      CancelAll(answers);
      CancelRoundLeavesRefusers(t, f, tasks, futures, answers);
      PollsThenCancels(old(tasks), old(futures), t, f, tasks, futures, answers, old(tasks).Keys);
      PollsThenCancelsRelease(old(tasks), old(futures), t, f, tasks, futures, nextId, answers);
    }
  }
}
