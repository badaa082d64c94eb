/** `ThreadPool`: the job queue, its mutex and condition variable, with any number of submitters, workers and stoppers.
    A step is one critical section, one notification, one wake-up or one finished job. */
module Pool {
  import opened Wrappers

  /** A worker is about to test its predicate under the lock (`testing`), blocked in the condition variable
      (`waiting`), running a job, or gone. `owed` counts submitters that have pushed and not yet called `notify_one`,
      `stopsOwed` stoppers that have set the flag and not yet called `notify_all`.
      `accepted` and `dequeued` are history, `finished` counts the jobs that have returned. */
  datatype State<J> = State(
    queue: seq<J>, stopped: bool,
    testing: set<nat>, waiting: set<nat>, running: map<nat, J>, exited: set<nat>,
    owed: nat, stopsOwed: nat,
    accepted: seq<J>, dequeued: seq<J>, finished: nat)

  function Init<J>(workers: set<nat>): State<J> {
    State([], false, workers, {}, map[], {}, 0, 0, [], [], 0)
  }

  datatype Action<J> =
    | Enqueue(j: J)        // enqueue up to the end of its critical section; refused if stopped
    | NotifyOne(w: nat)    // notify_one wakes worker w
    | NotifyNobody         // notify_one finds nobody waiting
    | Spurious(w: nat)
    | Test(w: nat)         // wait predicate, and what follows it under the lock
    | Finish(w: nat)       // task() returns
    | SetStopped
    | NotifyAll

  predicate Enabled<J>(s: State<J>, a: Action<J>) {
    match a
    case Enqueue(_) => true
    case NotifyOne(w) => s.owed > 0 && w in s.waiting
    case NotifyNobody => s.owed > 0 && s.waiting == {}
    case Spurious(w) => w in s.waiting
    case Test(w) => w in s.testing
    case Finish(w) => w in s.running
    case SetStopped => true
    case NotifyAll => s.stopsOwed > 0
  }

  function Step<J>(s: State<J>, a: Action<J>): State<J>
    requires Enabled(s, a)
  {
    match a
    case Enqueue(j) =>
      if s.stopped then s else s.(queue := s.queue + [j], accepted := s.accepted + [j], owed := s.owed + 1)
    case NotifyOne(w) => s.(owed := s.owed - 1, waiting := s.waiting - {w}, testing := s.testing + {w})
    case NotifyNobody => s.(owed := s.owed - 1)
    case Spurious(w) => s.(waiting := s.waiting - {w}, testing := s.testing + {w})
    case Test(w) =>
      if s.queue != [] then
        s.(queue := s.queue[1..], dequeued := s.dequeued + [s.queue[0]],
           testing := s.testing - {w}, running := s.running[w := s.queue[0]])
      else if s.stopped then s.(testing := s.testing - {w}, exited := s.exited + {w})
      else s.(testing := s.testing - {w}, waiting := s.waiting + {w})
    case Finish(w) =>
      s.(running := s.running - {w}, testing := s.testing + {w}, finished := s.finished + 1)
    case SetStopped => s.(stopped := true, stopsOwed := s.stopsOwed + 1)
    case NotifyAll => s.(stopsOwed := s.stopsOwed - 1, testing := s.testing + s.waiting, waiting := {})
  }

  // ---------------------------------------------------------- the invariants

  /** Every worker is in exactly one place. */
  ghost predicate Partitioned<J>(s: State<J>, workers: set<nat>) {
    && s.testing !! s.waiting !! s.running.Keys !! s.exited
    && s.testing + s.waiting + s.running.Keys + s.exited == workers
  }

  /** While somebody waits, every queued job is covered by a worker about to test or a notification still owed. */
  ghost predicate Covered<J>(s: State<J>) {
    s.waiting != {} ==> |s.queue| <= |s.testing| + s.owed
  }

  ghost predicate Inv<J>(s: State<J>, workers: set<nat>) {
    && Partitioned(s, workers)
    && Covered(s)
    && Accounted(s)
    && (s.exited != {} ==> s.stopped && s.queue == [])
    && (s.stopped && s.stopsOwed == 0 ==> s.waiting == {})
  }

  /** First in, first out; what has been taken is finished or being run. */
  ghost predicate Accounted<J>(s: State<J>) {
    && s.accepted == s.dequeued + s.queue
    && |s.dequeued| == s.finished + |s.running|
    && (forall w :: w in s.running ==> s.running[w] in s.dequeued)
  }

  lemma StepKeepsPartition<J>(s: State<J>, a: Action<J>, workers: set<nat>)
    requires Partitioned(s, workers) && Enabled(s, a)
    ensures Partitioned(Step(s, a), workers)
  {
  }

  lemma FinishKeepsAccounts<J>(s: State<J>, w: nat)
    requires Accounted(s) && w in s.running
    ensures Accounted(Step(s, Finish(w)))
  {
    assert Step(s, Finish(w)).running.Keys == s.running.Keys - {w};
  }

  lemma StepKeepsAccounts<J>(s: State<J>, a: Action<J>)
    requires Accounted(s) && Enabled(s, a) && s.testing !! s.running.Keys
    ensures Accounted(Step(s, a))
  {
    if a.Test? && s.queue != [] {
      hide Step;
    } else if a.Finish? {
      FinishKeepsAccounts(s, a.w);
      hide Step;
    }
  }

  lemma StepKeepsInv<J>(s: State<J>, a: Action<J>, workers: set<nat>)
    requires Inv(s, workers) && Enabled(s, a)
    ensures Inv(Step(s, a), workers)
  {
    StepKeepsPartition(s, a, workers);
    StepKeepsAccounts(s, a);
    hide Partitioned, Covered, Accounted;
  }

  // --------------------------------------------------------------- whole runs

  ghost predicate IsRun<J>(run: seq<State<J>>, acts: seq<Action<J>>, workers: set<nat>) {
    && |run| == |acts| + 1 && run[0] == Init(workers)
    && forall i :: 0 <= i < |acts| ==> Enabled(run[i], acts[i]) && run[i + 1] == Step(run[i], acts[i])
  }

  lemma AtFirst<J>(run: seq<State<J>>, acts: seq<Action<J>>, workers: set<nat>)
    requires IsRun(run, acts, workers)
    ensures |run| == |acts| + 1 && run[0] == Init(workers)
  {
  }

  lemma StepOfRun<J>(run: seq<State<J>>, acts: seq<Action<J>>, workers: set<nat>, n: nat)
    requires IsRun(run, acts, workers) && n < |acts|
    ensures |run| == |acts| + 1 && Enabled(run[n], acts[n]) && run[n + 1] == Step(run[n], acts[n])
  {
  }

  lemma {:induction false} RunKeepsInv<J>(run: seq<State<J>>, acts: seq<Action<J>>, workers: set<nat>, n: nat)
    requires IsRun(run, acts, workers) && n <= |acts|
    ensures Inv(run[n], workers)
  {
    if n > 0 {
      RunKeepsInv(run, acts, workers, n - 1);
      StepKeepsInv(run[n - 1], acts[n - 1], workers);
    }
  }

  /** No lost notification: with a job queued, either nobody sleeps and somebody is awake, or each queued job has its
      own awake worker or pending notification. */
  lemma WorkIsClaimed<J>(s: State<J>, workers: set<nat>)
    requires Inv(s, workers) && workers != {} && s.queue != []
    ensures s.testing != {} || s.running != map[] || s.owed > 0
    ensures s.waiting != {} ==> |s.queue| <= |s.testing| + s.owed
    ensures s.exited == {}
  {
  }

  /** Nothing is accepted after `stop`. */
  lemma {:induction false} StopRefuses<J>(run: seq<State<J>>, acts: seq<Action<J>>, workers: set<nat>, i: nat, j: nat)
    requires IsRun(run, acts, workers) && i <= j <= |acts| && run[i].stopped
    ensures run[j].stopped && run[j].accepted == run[i].accepted
    decreases j
  {
    if i < j {
      StopRefuses(run, acts, workers, i, j - 1);
      assert run[j] == Step(run[j - 1], acts[j - 1]);
    }
  }

  ghost predicate StopCalled<J>(acts: seq<Action<J>>) { exists a :: a in acts && a.SetStopped? }

  /** The jobs submitted before anybody calls `stop`, in order. */
  ghost function Submitted<J>(acts: seq<Action<J>>): seq<J> {
    if acts == [] then []
    else
      var (front, a) := (acts[..|acts| - 1], acts[|acts| - 1]);
      Submitted(front) + if a.Enqueue? && !StopCalled(front) then [a.j] else []
  }

  lemma StepAccepts<J>(s: State<J>, a: Action<J>)
    requires Enabled(s, a)
    ensures Step(s, a).stopped <==> s.stopped || a.SetStopped?
    ensures Step(s, a).accepted == s.accepted + if a.Enqueue? && !s.stopped then [a.j] else []
  {
  }

  /** A pool refuses work if and only if `stop` has been called: what it has accepted are exactly the jobs submitted before
      that, in the order of their submission. */
  lemma {:induction false} AcceptsExactly<J>(run: seq<State<J>>, acts: seq<Action<J>>, workers: set<nat>, n: nat)
    requires IsRun(run, acts, workers) && n <= |acts|
    ensures run[n].accepted == Submitted(acts[..n])
    ensures run[n].stopped <==> StopCalled(acts[..n])
  {
    if n > 0 {
      AcceptsExactly(run, acts, workers, n - 1);
      assert Enabled(run[n - 1], acts[n - 1]) && run[n] == Step(run[n - 1], acts[n - 1]);
      var front, a := acts[..n - 1], acts[n - 1];
      assert acts[..n] == front + [a] && acts[..n][..n - 1] == front;
      hide IsRun, Step, Enabled;
      StepAccepts(run[n - 1], a);
      assert StopCalled(acts[..n]) <==> StopCalled(front) || a.SetStopped? by {
        assert forall x :: x in acts[..n] <==> x in front || x == a;
      }
    }
  }

  /** `join` cannot hang on a sleeper: once a `notify_all` has followed the flag nobody waits, and nobody ever will again,
      whether or not further calls of `stop` still owe theirs. */
  lemma {:induction false} StoppedPoolIsAwake<J>(run: seq<State<J>>, acts: seq<Action<J>>, workers: set<nat>, i: nat, j: nat)
    requires IsRun(run, acts, workers) && i <= j <= |acts| && run[i].stopped && run[i].stopsOwed == 0
    ensures run[j].stopped && run[j].waiting == {}
    decreases j
  {
    if i < j {
      StoppedPoolIsAwake(run, acts, workers, i, j - 1);
      assert Enabled(run[j - 1], acts[j - 1]) && run[j] == Step(run[j - 1], acts[j - 1]);
    } else {
      RunKeepsInv(run, acts, workers, i);
    }
  }

  /** How many tests of the predicate there have been, and how many times a worker has been given cause for one. */
  ghost function Tests<J>(acts: seq<Action<J>>): nat {
    if acts == [] then 0 else Tests(acts[..|acts| - 1]) + if acts[|acts| - 1].Test? then 1 else 0
  }

  ghost function Causes<J>(s: State<J>, a: Action<J>): nat {
    match a
    case NotifyOne(_) => 1
    case Spurious(_) => 1
    case Finish(_) => 1
    case NotifyAll => |s.waiting|
    case _ => 0
  }

  ghost function CausesIn<J>(run: seq<State<J>>, acts: seq<Action<J>>): nat
    requires |run| >= |acts|
  {
    if acts == [] then 0 else CausesIn(run, acts[..|acts| - 1]) + Causes(run[|acts| - 1], acts[|acts| - 1])
  }

  lemma StepTests<J>(s: State<J>, a: Action<J>, workers: set<nat>)
    requires Partitioned(s, workers) && Enabled(s, a)
    ensures |Step(s, a).testing| + (if a.Test? then 1 else 0) == |s.testing| + Causes(s, a)
  {
    if a.NotifyAll? {
      assert |s.testing + s.waiting| == |s.testing| + |s.waiting|;
    }
  }

  /** No busy waiting: a worker tests its predicate once when it starts, and then once for each job it has finished and each
      time it has been woken; a notification wakes one. */
  lemma {:induction false} NoBusyWaiting<J>(run: seq<State<J>>, acts: seq<Action<J>>, workers: set<nat>, n: nat)
    requires IsRun(run, acts, workers) && n <= |acts|
    ensures Tests(acts[..n]) + |run[n].testing| == |workers| + CausesIn(run, acts[..n])
  {
    hide IsRun, Step, Enabled, Causes;
    if n == 0 {
      RunKeepsInv(run, acts, workers, 0);
      AtFirst(run, acts, workers);
    } else {
      NoBusyWaiting(run, acts, workers, n - 1);
      RunKeepsInv(run, acts, workers, n - 1);
      StepOfRun(run, acts, workers, n - 1);
      StepTests(run[n - 1], acts[n - 1], workers);
      assert acts[..n][..n - 1] == acts[..n - 1];
    }
  }

  /** What the workers of a stopped pool still have to do: two steps for each job in the queue, as many for a job that runs,
      counting the test after it, and one to leave. */
  ghost function Left<J>(s: State<J>): nat { 2 * |s.queue| + 2 * |s.running| + |s.testing| }

  ghost function Works<J>(acts: seq<Action<J>>): nat {
    if acts == [] then 0
    else Works(acts[..|acts| - 1]) + if acts[|acts| - 1].Test? || acts[|acts| - 1].Finish? then 1 else 0
  }

  lemma StepLeaves<J>(s: State<J>, a: Action<J>, workers: set<nat>)
    requires Inv(s, workers) && Enabled(s, a) && s.stopped && s.waiting == {}
    ensures Left(Step(s, a)) + (if a.Test? || a.Finish? then 1 else 0) == Left(s)
  {
    hide Covered, Accounted;
    var s' := Step(s, a);
    if a.Test? && s.queue != [] {
      assert s'.running.Keys == s.running.Keys + {a.w};
    } else if a.Finish? {
      assert s'.running.Keys == s.running.Keys - {a.w};
    } else if a.NotifyAll? {
      assert s'.testing == s.testing;
    }
  }

  /** `join` returns: once a `notify_all` has followed the flag, each step of a worker is one of those left, whatever other
      threads do; all have been joined exactly when none is left; and until then some worker can take one. */
  lemma {:induction false} JoinReturns<J>(run: seq<State<J>>, acts: seq<Action<J>>, workers: set<nat>, i: nat, n: nat)
    requires IsRun(run, acts, workers) && i <= n <= |acts| && run[i].stopped && run[i].stopsOwed == 0 && workers != {}
    ensures Works(acts[i..n]) + Left(run[n]) == Left(run[i])
    ensures Left(run[n]) == 0 <==> run[n].exited == workers
    ensures Left(run[n]) > 0 ==> exists w :: w in workers && (Enabled(run[n], Test(w)) || Enabled(run[n], Finish(w)))
    decreases n
  {
    hide IsRun, Step, Enabled, Inv, Left;
    AtFirst(run, acts, workers);
    RunKeepsInv(run, acts, workers, n);
    StoppedPoolIsAwake(run, acts, workers, i, n);
    NothingLeft(run[n], workers);
    if i < n {
      JoinReturns(run, acts, workers, i, n - 1);
      RunKeepsInv(run, acts, workers, n - 1);
      StoppedPoolIsAwake(run, acts, workers, i, n - 1);
      StepOfRun(run, acts, workers, n - 1);
      StepLeaves(run[n - 1], acts[n - 1], workers);
      assert acts[i..n][..n - 1 - i] == acts[i..n - 1];
    }
  }

  lemma NothingLeft<J>(s: State<J>, workers: set<nat>)
    requires Inv(s, workers) && s.waiting == {} && workers != {}
    ensures Left(s) == 0 <==> s.exited == workers
    ensures Left(s) > 0 ==> exists w :: w in workers && (Enabled(s, Test(w)) || Enabled(s, Finish(w)))
  {
    if s.testing != {} {
      var w :| w in s.testing;
      assert w in workers && Enabled(s, Test(w));
    } else if s.running.Keys != {} {
      var w :| w in s.running.Keys;
      assert w in workers && Enabled(s, Finish(w));
    }
  }

  /** Once every worker has been joined, every accepted job has been run, in the order of acceptance and once each. */
  lemma JoinedMeansDone<J>(run: seq<State<J>>, acts: seq<Action<J>>, workers: set<nat>, n: nat)
    requires IsRun(run, acts, workers) && n <= |acts| && workers != {}
    requires run[n].exited == workers
    ensures run[n].stopped && run[n].queue == [] && run[n].dequeued == run[n].accepted
    ensures run[n].finished == |run[n].accepted|
  {
    RunKeepsInv(run, acts, workers, n);
    var w :| w in workers;
    assert w in run[n].exited;
    assert run[n].running.Keys == {} && run[n].running == map[];
  }
}
