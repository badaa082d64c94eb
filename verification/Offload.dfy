/** `co_await pool.submit(loop, f)` from end to end: a pool and any number of loops, interleaved step by step.
    A worker takes the job, stores the outcome of f in the shared state, posts the continuation to the loop named by the
    submission, and the loop resumes the coroutine. */
module Offload {
  import opened Wrappers
  import P = Pool
  import W = Wakeup

  datatype Outcome = Value(v: int) | Exception(e: int)

  /** One submission: its identity, the loop to continue on, and what f will produce. */
  datatype Job = Job(id: nat, loop: nat, outcome: Outcome)

  /** What loops are asked to run: continuations of submissions, and callbacks of the application. */
  datatype Callback = Resume(job: Job) | Plain(n: nat)

  /** How far a worker is in the function object that `await_suspend` enqueued. */
  datatype Phase = Computing | Stored | Posting

  datatype State = State(pool: P.State<Job>, loops: map<nat, W.State<Callback>>, phase: map<nat, Phase>,
                         results: map<nat, Outcome>)

  function Init(workers: set<nat>, loops: set<nat>): State {
    State(P.Init(workers), map l | l in loops :: W.Init(), map[], map[])
  }

  datatype Action =
    | PoolStep(p: P.Action<Job>)
    | Store(w: nat)
    | CallPost(w: nat)
    | Return(w: nat)
    | LoopStep(l: nat, a: W.Action<Callback>)

  /** Threads of the pool post nothing but continuations; a continuation does not throw, since `unhandled_exception`
      keeps what the coroutine throws. */
  predicate Enabled(s: State, workers: set<nat>, a: Action) {
    match a
    case PoolStep(p) =>
      && P.Enabled(s.pool, p) && !p.Finish?
      && (p.Enqueue? ==> p.j.loop in s.loops && forall x :: x in s.pool.accepted ==> x.id != p.j.id)
    case Store(w) => w in s.pool.running && w in s.phase && s.phase[w] == Computing
    case CallPost(w) =>
      && w in s.pool.running && w in s.phase && s.phase[w] == Stored
      && s.pool.running[w].loop in s.loops && w !in s.loops[s.pool.running[w].loop].posters
    case Return(w) =>
      && w in s.pool.running && w in s.phase && s.phase[w] == Posting
      && s.pool.running[w].loop in s.loops && w !in s.loops[s.pool.running[w].loop].posters
    case LoopStep(l, a) =>
      && l in s.loops && W.Enabled(s.loops[l], a)
      && (a.CallPost? ==> a.t !in workers && a.c.Plain?)
      && (a.ThrowOne? ==> s.loops[l].batch[0].Plain?)
  }

  function Step(s: State, workers: set<nat>, a: Action): State
    requires Enabled(s, workers, a)
  {
    match a
    case PoolStep(p) =>
      var pool := P.Step(s.pool, p);
      s.(pool := pool, phase := if p.Test? && s.pool.queue != [] then s.phase[p.w := Computing] else s.phase)
    case Store(w) =>
      s.(results := s.results[s.pool.running[w].id := s.pool.running[w].outcome], phase := s.phase[w := Stored])
    case CallPost(w) =>
      var l := s.pool.running[w].loop;
      s.(loops := s.loops[l := W.Step(s.loops[l], W.CallPost(w, Resume(s.pool.running[w])))],
         phase := s.phase[w := Posting])
    case Return(w) => s.(pool := P.Step(s.pool, P.Finish(w)), phase := s.phase - {w})
    case LoopStep(l, a) => s.(loops := s.loops[l := W.Step(s.loops[l], a)])
  }

  // ---------------------------------------------------------- the invariants

  /** Worker w runs job j and has not yet pushed its continuation. */
  predicate Holds(s: State, w: nat, j: Job) {
    && w in s.pool.running && s.pool.running[w] == j && w in s.phase
    && (s.phase[w] == Posting ==>
          && j.loop in s.loops && w in s.loops[j.loop].posters
          && (s.loops[j.loop].posters[w].Locking? || s.loops[j.loop].posters[w].Pushing?))
  }

  ghost predicate Held(s: State, j: Job) { exists w :: Holds(s, w, j) }

  predicate Posted(s: State, j: Job) { j.loop in s.loops && Resume(j) in s.loops[j.loop].posted }

  /** Both machines keep their own invariants. */
  ghost predicate PartsOk(s: State, workers: set<nat>) {
    && P.Inv(s.pool, workers)
    && (forall l :: l in s.loops ==> W.Inv(s.loops[l]))
    && s.phase.Keys == s.pool.running.Keys
  }

  ghost predicate JobsOk(s: State) {
    && (forall a, b :: 0 <= a < b < |s.pool.accepted| ==> s.pool.accepted[a].id != s.pool.accepted[b].id)
    && (forall j :: j in s.pool.accepted ==> j.loop in s.loops)
  }

  /** A job taken from the queue is either with exactly one worker or pushed, never both. */
  ghost predicate TokensOk(s: State) {
    && (forall j :: j in s.pool.dequeued ==> (Held(s, j) <==> !Posted(s, j)))
    && (forall w, w', j :: Holds(s, w, j) && Holds(s, w', j) ==> w == w')
  }

  /** A poster of a continuation is the worker that runs its job, on the loop of that job. */
  ghost predicate PostersOk(s: State, workers: set<nat>) {
    forall l, t :: l in s.loops && t in s.loops[l].posters ==>
      var pc := s.loops[l].posters[t];
      && (t in workers ==> t in s.pool.running && s.pool.running[t].loop == l && t in s.phase && s.phase[t] == Posting)
      && (pc.Locking? || pc.Pushing? ==>
            if t in workers then pc.c == Resume(s.pool.running[t]) else pc.c.Plain?)
  }

  /** Continuations are pushed once, on the right loop, after the outcome has been stored. */
  ghost predicate PostsOk(s: State) {
    forall l :: l in s.loops ==>
      && (forall c :: c in s.loops[l].posted && c.Resume? ==>
            && c.job.loop == l && c.job in s.pool.dequeued
            && c.job.id in s.results && s.results[c.job.id] == c.job.outcome)
      && (forall a, b :: 0 <= a < b < |s.loops[l].posted| && s.loops[l].posted[a].Resume? ==>
            s.loops[l].posted[a] != s.loops[l].posted[b])
  }

  ghost predicate ResultsOk(s: State) {
    forall w :: w in s.phase && w in s.pool.running && s.phase[w] != Computing ==>
      s.pool.running[w].id in s.results && s.results[s.pool.running[w].id] == s.pool.running[w].outcome
  }

  ghost predicate Inv(s: State, workers: set<nat>) {
    PartsOk(s, workers) && JobsOk(s) && TokensOk(s) && PostersOk(s, workers) && PostsOk(s) && ResultsOk(s)
  }

  lemma PartsStay(s: State, workers: set<nat>, a: Action)
    requires Inv(s, workers) && Enabled(s, workers, a)
    ensures PartsOk(Step(s, workers, a), workers)
  {
    hide P.Inv, W.Inv, W.Step, JobsOk, TokensOk, PostersOk, PostsOk, ResultsOk;
    match a
    case PoolStep(p) => P.StepKeepsInv(s.pool, p, workers);
    case Return(w) => P.StepKeepsInv(s.pool, P.Finish(w), workers);
    case CallPost(w) => W.StepKeepsInv(s.loops[s.pool.running[w].loop], W.CallPost(w, Resume(s.pool.running[w])));
    case LoopStep(l, a) => W.StepKeepsInv(s.loops[l], a);
    case Store(_) =>
  }

  // A job is known to the pool when it is in the queue or has been taken; the two are apart.
  lemma JobPlaces(s: State, workers: set<nat>)
    requires PartsOk(s, workers) && JobsOk(s)
    ensures s.pool.accepted == s.pool.dequeued + s.pool.queue
    ensures forall j :: j in s.pool.dequeued ==> j in s.pool.accepted && j !in s.pool.queue
    ensures forall j :: j in s.pool.queue ==> j in s.pool.accepted
    ensures forall w :: w in s.pool.running ==> s.pool.running[w] in s.pool.dequeued
  {
    var acc, deq := s.pool.accepted, s.pool.dequeued;
    forall a, b | 0 <= a < |deq| && 0 <= b < |s.pool.queue|
      ensures deq[a] != s.pool.queue[b]
    {
      assert acc[a] == deq[a] && acc[|deq| + b] == s.pool.queue[b];
    }
    assert forall j :: j in deq ==> j in acc;
  }

  // Two accepted jobs with the same identity are the same submission.
  lemma SameId(s: State, workers: set<nat>, j: Job, k: Job)
    requires PartsOk(s, workers) && JobsOk(s) && j in s.pool.dequeued && k in s.pool.dequeued && j.id == k.id
    ensures j == k
  {
    JobPlaces(s, workers);
    hide P.Inv, W.Inv;
    var a :| 0 <= a < |s.pool.accepted| && s.pool.accepted[a] == j;
    var b :| 0 <= b < |s.pool.accepted| && s.pool.accepted[b] == k;
  }

  /** A step that moves no token. */
  lemma TokensFrame(s: State, s': State)
    requires TokensOk(s)
    requires forall w, j :: Holds(s', w, j) <==> Holds(s, w, j)
    requires forall j :: j in s.pool.dequeued ==> (Posted(s', j) <==> Posted(s, j))
    requires s'.pool.dequeued == s.pool.dequeued
    ensures TokensOk(s')
  {
  }

  // ------------------------------------------------------- a worker stores

  lemma StorePosts(s: State, workers: set<nat>, w: nat)
    requires PartsOk(s, workers) && JobsOk(s) && PostsOk(s) && Enabled(s, workers, Store(w))
    ensures PostsOk(Step(s, workers, Store(w)))
  {
    var s', j := Step(s, workers, Store(w)), s.pool.running[w];
    assert j in s.pool.dequeued by { JobPlaces(s, workers); }
    forall l, c | l in s.loops && c in s.loops[l].posted && c.Resume? && c.job.id == j.id
      ensures c.job == j
    {
      SameId(s, workers, c.job, j);
    }
    hide PartsOk, JobsOk;
  }

  lemma RunningSameId(s: State, workers: set<nat>, w: nat, x: nat)
    requires PartsOk(s, workers) && JobsOk(s) && w in s.pool.running && x in s.pool.running
    requires s.pool.running[x].id == s.pool.running[w].id
    ensures s.pool.running[x] == s.pool.running[w]
  {
    JobPlaces(s, workers);
    SameId(s, workers, s.pool.running[x], s.pool.running[w]);
  }

  lemma StoreResults(s: State, workers: set<nat>, w: nat)
    requires PartsOk(s, workers) && JobsOk(s) && ResultsOk(s) && Enabled(s, workers, Store(w))
    ensures ResultsOk(Step(s, workers, Store(w)))
  {
    hide PartsOk, JobsOk;
    forall x | x in s.pool.running && s.pool.running[x].id == s.pool.running[w].id
      ensures s.pool.running[x] == s.pool.running[w]
    {
      RunningSameId(s, workers, w, x);
    }
  }

  lemma StoreTokens(s: State, workers: set<nat>, w: nat)
    requires TokensOk(s) && PostersOk(s, workers) && Enabled(s, workers, Store(w))
    ensures TokensOk(Step(s, workers, Store(w))) && PostersOk(Step(s, workers, Store(w)), workers)
  {
    TokensFrame(s, Step(s, workers, Store(w)));
  }

  // ------------------------------------------- a worker enters and leaves post

  lemma CallPostTokens(s: State, workers: set<nat>, w: nat)
    requires TokensOk(s) && PostersOk(s, workers) && Enabled(s, workers, CallPost(w))
    ensures TokensOk(Step(s, workers, CallPost(w)))
  {
    TokensFrame(s, Step(s, workers, CallPost(w)));
  }

  lemma CallPostPosters(s: State, workers: set<nat>, w: nat)
    requires s.phase.Keys == s.pool.running.Keys
    requires PostersOk(s, workers) && w in workers && Enabled(s, workers, CallPost(w))
    ensures PostersOk(Step(s, workers, CallPost(w)), workers)
  {
  }

  lemma CallPostRest(s: State, workers: set<nat>, w: nat)
    requires PostsOk(s) && ResultsOk(s) && Enabled(s, workers, CallPost(w))
    ensures PostsOk(Step(s, workers, CallPost(w))) && ResultsOk(Step(s, workers, CallPost(w)))
  {
  }

  lemma ReturnTokens(s: State, workers: set<nat>, w: nat)
    requires TokensOk(s) && Enabled(s, workers, Return(w))
    ensures TokensOk(Step(s, workers, Return(w)))
  {
    TokensFrame(s, Step(s, workers, Return(w)));
  }

  lemma ReturnRest(s: State, workers: set<nat>, w: nat)
    requires PostersOk(s, workers) && PostsOk(s) && ResultsOk(s) && Enabled(s, workers, Return(w))
    ensures var s' := Step(s, workers, Return(w)); PostersOk(s', workers) && PostsOk(s') && ResultsOk(s')
  {
  }

  // ------------------------------------------------------------ the pool moves

  lemma PoolJobs(s: State, workers: set<nat>, p: P.Action<Job>)
    requires JobsOk(s) && Enabled(s, workers, PoolStep(p))
    ensures JobsOk(Step(s, workers, PoolStep(p)))
  {
  }

  lemma TestTokens(s: State, workers: set<nat>, w: nat)
    requires TokensOk(s) && PostsOk(s) && Enabled(s, workers, PoolStep(P.Test(w))) && s.pool.queue != []
    requires w !in s.pool.running && s.pool.queue[0] !in s.pool.dequeued
    requires forall x :: x in s.pool.running ==> s.pool.running[x] in s.pool.dequeued
    ensures TokensOk(Step(s, workers, PoolStep(P.Test(w))))
  {
    var s', j := Step(s, workers, PoolStep(P.Test(w))), s.pool.queue[0];
    assert forall x, k :: Holds(s', x, k) <==> Holds(s, x, k) || (x == w && k == j);
    assert Holds(s', w, j) && !Posted(s, j);
    assert forall k :: Held(s', k) <==> Held(s, k) || k == j;
    assert forall k :: Posted(s', k) <==> Posted(s, k);
  }

  lemma IdleTokens(s: State, workers: set<nat>, p: P.Action<Job>)
    requires TokensOk(s) && Enabled(s, workers, PoolStep(p)) && (p.Test? ==> s.pool.queue == [])
    ensures TokensOk(Step(s, workers, PoolStep(p)))
  {
    var s' := Step(s, workers, PoolStep(p));
    assert s'.pool.running == s.pool.running && s'.pool.dequeued == s.pool.dequeued;
    hide P.Step;
    TokensFrame(s, s');
  }

  lemma PoolPosters(s: State, workers: set<nat>, p: P.Action<Job>)
    requires PostersOk(s, workers) && Enabled(s, workers, PoolStep(p)) && (p.Test? ==> p.w !in s.pool.running)
    ensures PostersOk(Step(s, workers, PoolStep(p)), workers)
  {
  }

  lemma PoolRest(s: State, workers: set<nat>, p: P.Action<Job>)
    requires PostsOk(s) && ResultsOk(s) && Enabled(s, workers, PoolStep(p))
    requires p.Test? ==> p.w !in s.pool.running
    ensures PostsOk(Step(s, workers, PoolStep(p))) && ResultsOk(Step(s, workers, PoolStep(p)))
  {
  }

  // ------------------------------------------------------------- a loop moves

  lemma PusherHolds(s: State, workers: set<nat>, l: nat, t: nat)
    requires PostersOk(s, workers) && t in workers && Enabled(s, workers, LoopStep(l, W.Push(t)))
    ensures t in s.pool.running && s.pool.running[t].loop == l && Holds(s, t, s.pool.running[t])
    ensures s.loops[l].posters[t].c == Resume(s.pool.running[t])
  {
  }

  lemma PushMoves(s: State, workers: set<nat>, l: nat, t: nat)
    requires TokensOk(s) && PostersOk(s, workers) && t in workers && Enabled(s, workers, LoopStep(l, W.Push(t)))
    ensures t in s.pool.running
    ensures var (s', j) := (Step(s, workers, LoopStep(l, W.Push(t))), s.pool.running[t]);
            && (forall x, k :: Holds(s', x, k) <==> Holds(s, x, k) && x != t)
            && (forall k :: Posted(s', k) <==> Posted(s, k) || k == j)
            && s'.pool == s.pool
  {
    PusherHolds(s, workers, l, t);
    hide TokensOk, PostersOk;
  }

  lemma HoldsIs(s: State, w: nat, j: Job)
    requires Holds(s, w, j)
    ensures w in s.pool.running && s.pool.running[w] == j
  {
  }

  lemma PushTokens(s: State, workers: set<nat>, l: nat, t: nat)
    requires TokensOk(s) && PostersOk(s, workers) && t in workers && Enabled(s, workers, LoopStep(l, W.Push(t)))
    requires forall x :: x in s.pool.running ==> s.pool.running[x] in s.pool.dequeued
    ensures TokensOk(Step(s, workers, LoopStep(l, W.Push(t))))
    ensures t in s.pool.running && s.loops[l].posters[t].c == Resume(s.pool.running[t]) && s.pool.running[t] in s.pool.dequeued
    ensures s.pool.running[t].loop == l && !Posted(s, s.pool.running[t])
  {
    hide PostersOk, Step, Enabled, Holds, Posted;
    PusherHolds(s, workers, l, t);
    PushMoves(s, workers, l, t);
    var s', j := Step(s, workers, LoopStep(l, W.Push(t))), s.pool.running[t];
    assert Held(s, j);
    forall k
      ensures Held(s', k) <==> Held(s, k) && k != j
    {
      if Held(s, k) && k != j {
        var x :| Holds(s, x, k);
        HoldsIs(s, x, k);
        assert Holds(s', x, k);
      }
      if Held(s', k) {
        var x :| Holds(s', x, k);
        assert Holds(s, x, k);
      }
    }
  }

  lemma LoopTokens(s: State, workers: set<nat>, l: nat, a: W.Action<Callback>)
    requires TokensOk(s) && PostersOk(s, workers) && Enabled(s, workers, LoopStep(l, a))
    requires s.pool.running.Keys <= workers && (a.Push? ==> a.t !in workers)
    ensures TokensOk(Step(s, workers, LoopStep(l, a)))
  {
    var s' := Step(s, workers, LoopStep(l, a));
    W.PosterFrame(s.loops[l], a);
    hide W.Step;
    assert forall j :: Posted(s', j) <==> Posted(s, j);
    TokensFrame(s, s');
  }

  lemma LoopPosters(s: State, workers: set<nat>, l: nat, a: W.Action<Callback>)
    requires PostersOk(s, workers) && Enabled(s, workers, LoopStep(l, a))
    ensures PostersOk(Step(s, workers, LoopStep(l, a)), workers)
  {
    W.PosterFrame(s.loops[l], a);
    hide W.Step;
  }

  lemma LoopPosts(s: State, workers: set<nat>, l: nat, a: W.Action<Callback>)
    requires PostsOk(s) && PostersOk(s, workers) && Enabled(s, workers, LoopStep(l, a))
    requires a.Push? && a.t in workers ==>
               && ResultsOk(s) && a.t in s.pool.running && s.loops[l].posters[a.t].c == Resume(s.pool.running[a.t])
               && s.pool.running[a.t] in s.pool.dequeued && s.pool.running[a.t].loop == l
               && !Posted(s, s.pool.running[a.t])
    ensures PostsOk(Step(s, workers, LoopStep(l, a)))
  {
    W.PosterFrame(s.loops[l], a);
    if a.Push? {
      PushPosts(s, workers, l, a.t);
    }
  }

  lemma PushPosts(s: State, workers: set<nat>, l: nat, t: nat)
    requires PostsOk(s) && PostersOk(s, workers) && Enabled(s, workers, LoopStep(l, W.Push(t)))
    requires t in workers ==>
               && ResultsOk(s) && t in s.pool.running && s.loops[l].posters[t].c == Resume(s.pool.running[t])
               && s.pool.running[t] in s.pool.dequeued && s.pool.running[t].loop == l
               && !Posted(s, s.pool.running[t])
    requires t in s.loops[l].posters && s.loops[l].posters[t].Pushing?
    requires W.Step(s.loops[l], W.Push(t)).posted == s.loops[l].posted + [s.loops[l].posters[t].c]
    ensures PostsOk(Step(s, workers, LoopStep(l, W.Push(t))))
  {
    var c := s.loops[l].posters[t].c;
    assert c.Resume? ==>
        && t in workers && c.job.loop == l && c.job in s.pool.dequeued && c !in s.loops[l].posted
        && c.job.id in s.results && s.results[c.job.id] == c.job.outcome;
    hide W.Step, W.Enabled, PostersOk, ResultsOk, Posted;
  }

  // ------------------------------------------------------------ every step

  /** What the single steps need to know of the two machines. */
  lemma PartsFacts(s: State, workers: set<nat>)
    requires PartsOk(s, workers) && JobsOk(s)
    ensures s.phase.Keys == s.pool.running.Keys <= workers
    ensures forall w :: w in s.pool.running ==> s.pool.running[w] in s.pool.dequeued && w !in s.pool.testing
    ensures s.pool.queue != [] ==> s.pool.queue[0] !in s.pool.dequeued
  {
    JobPlaces(s, workers);
    hide W.Inv;
  }

  lemma JobsFrame(s: State, workers: set<nat>, a: Action)
    requires JobsOk(s) && Enabled(s, workers, a) && !a.PoolStep?
    ensures JobsOk(Step(s, workers, a))
  {
  }

  lemma LoopResults(s: State, workers: set<nat>, l: nat, a: W.Action<Callback>)
    requires ResultsOk(s) && Enabled(s, workers, LoopStep(l, a))
    ensures ResultsOk(Step(s, workers, LoopStep(l, a)))
  {
  }

  lemma WorkerStepKeepsInv(s: State, workers: set<nat>, a: Action)
    requires Inv(s, workers) && Enabled(s, workers, a) && (a.Store? || a.CallPost? || a.Return?)
    ensures Inv(Step(s, workers, a), workers)
  {
    hide PartsOk, JobsOk, TokensOk, PostersOk, PostsOk, ResultsOk, P.Step, W.Step;
    PartsStay(s, workers, a);
    PartsFacts(s, workers);
    JobsFrame(s, workers, a);
    match a
    case Store(w) => StorePosts(s, workers, w); StoreResults(s, workers, w); StoreTokens(s, workers, w);
    case CallPost(w) => CallPostTokens(s, workers, w); CallPostPosters(s, workers, w); CallPostRest(s, workers, w);
    case Return(w) => ReturnTokens(s, workers, w); ReturnRest(s, workers, w);
  }

  lemma PoolStepKeepsInv(s: State, workers: set<nat>, p: P.Action<Job>)
    requires Inv(s, workers) && Enabled(s, workers, PoolStep(p))
    ensures Inv(Step(s, workers, PoolStep(p)), workers)
  {
    hide PartsOk, JobsOk, TokensOk, PostersOk, PostsOk, ResultsOk, P.Step;
    PartsStay(s, workers, PoolStep(p));
    PartsFacts(s, workers);
    PoolJobs(s, workers, p);
    if p.Test? && s.pool.queue != [] {
      TestTokens(s, workers, p.w);
    } else {
      IdleTokens(s, workers, p);
    }
    PoolPosters(s, workers, p);
    PoolRest(s, workers, p);
  }

  lemma LoopStepKeepsInv(s: State, workers: set<nat>, l: nat, a: W.Action<Callback>)
    requires Inv(s, workers) && Enabled(s, workers, LoopStep(l, a))
    ensures Inv(Step(s, workers, LoopStep(l, a)), workers)
  {
    hide PartsOk, JobsOk, TokensOk, PostersOk, PostsOk, ResultsOk, W.Step;
    PartsStay(s, workers, LoopStep(l, a));
    PartsFacts(s, workers);
    JobsFrame(s, workers, LoopStep(l, a));
    LoopResults(s, workers, l, a);
    if a.Push? && a.t in workers {
      PushTokens(s, workers, l, a.t);
    } else {
      LoopTokens(s, workers, l, a);
    }
    LoopPosters(s, workers, l, a);
    LoopPosts(s, workers, l, a);
  }

  lemma StepKeepsInv(s: State, workers: set<nat>, a: Action)
    requires Inv(s, workers) && Enabled(s, workers, a)
    ensures Inv(Step(s, workers, a), workers)
  {
    match a
    case PoolStep(p) => PoolStepKeepsInv(s, workers, p);
    case LoopStep(l, b) => LoopStepKeepsInv(s, workers, l, b);
    case Store(_) => WorkerStepKeepsInv(s, workers, a);
    case CallPost(_) => WorkerStepKeepsInv(s, workers, a);
    case Return(_) => WorkerStepKeepsInv(s, workers, a);
  }

  // --------------------------------------------------------------- whole runs

  ghost predicate IsRun(run: seq<State>, acts: seq<Action>, workers: set<nat>, loops: set<nat>) {
    && |run| == |acts| + 1 && run[0] == Init(workers, loops)
    && forall i :: 0 <= i < |acts| ==> Enabled(run[i], workers, acts[i]) && run[i + 1] == Step(run[i], workers, acts[i])
  }

  lemma {:induction false} RunKeepsInv(run: seq<State>, acts: seq<Action>, workers: set<nat>, loops: set<nat>, n: nat)
    requires IsRun(run, acts, workers, loops) && n <= |acts|
    ensures Inv(run[n], workers)
  {
    if n > 0 {
      RunKeepsInv(run, acts, workers, loops, n - 1);
      hide Inv, Step;
      StepKeepsInv(run[n - 1], workers, acts[n - 1]);
    }
  }

  ghost function Count<T>(q: seq<T>, x: T): nat { multiset(q)[x] }

  lemma {:induction false} CountUnique<T>(q: seq<T>, x: T)
    requires forall a, b :: 0 <= a < b < |q| && q[a] == x ==> q[b] != x
    ensures Count(q, x) == if x in q then 1 else 0
  {
    if q != [] {
      var n := |q| - 1;
      assert q == q[..n] + [q[n]];
      CountUnique(q[..n], x);
      assert x in q[..n] ==> q[n] != x;
    }
  }

  /** How many tokens a submission has at each stage: queued, with a worker, pending, in the local batch, consumed. */
  ghost function TokenCount(s: State, j: Job): nat
    requires j.loop in s.loops
  {
    var l := s.loops[j.loop];
    Count(s.pool.queue, j) + (if Held(s, j) then 1 else 0)
    + Count(l.pending, Resume(j)) + Count(l.batch, Resume(j)) + Count(W.Callbacks(l.consumed), Resume(j))
  }

  lemma PostedCount(s: State, workers: set<nat>, j: Job)
    requires Inv(s, workers) && j.loop in s.loops
    ensures var l := s.loops[j.loop];
            Count(l.pending, Resume(j)) + Count(l.batch, Resume(j)) + Count(W.Callbacks(l.consumed), Resume(j))
            == if Posted(s, j) then 1 else 0
  {
    var l := s.loops[j.loop];
    assert l.posted == W.Callbacks(l.consumed) + l.batch + l.pending;
    CountUnique(l.posted, Resume(j));
  }

  lemma QueueUnique(s: State, workers: set<nat>, j: Job)
    requires PartsOk(s, workers) && JobsOk(s)
    ensures Count(s.pool.queue, j) == if j in s.pool.queue then 1 else 0
  {
    JobPlaces(s, workers);
    hide PartsOk;
    var q, d := s.pool.queue, |s.pool.dequeued|;
    forall a, b | 0 <= a < b < |q|
      ensures q[a] != q[b]
    {
      assert s.pool.accepted[d + a] == q[a] && s.pool.accepted[d + b] == q[b];
    }
    CountUnique(q, j);
  }

  lemma QueuedIsNowhereElse(s: State, workers: set<nat>, j: Job)
    requires Inv(s, workers) && j in s.pool.queue
    ensures !Posted(s, j) && !Held(s, j)
  {
    JobPlaces(s, workers);
    hide PartsOk, JobsOk, TokensOk, PostersOk, ResultsOk;
  }

  lemma JobHasLoop(s: State, j: Job)
    requires JobsOk(s) && j in s.pool.accepted
    ensures j.loop in s.loops
  {
  }

  lemma OneToken(s: State, workers: set<nat>, j: Job)
    requires Inv(s, workers) && j in s.pool.accepted
    ensures j.loop in s.loops && TokenCount(s, j) == 1
    ensures forall w, w' :: Holds(s, w, j) && Holds(s, w', j) ==> w == w'
  {
    hide PartsOk, JobsOk, PostersOk, PostsOk, ResultsOk, Holds, Posted, Held, Count;
    JobPlaces(s, workers);
    JobHasLoop(s, j);
    QueueUnique(s, workers, j);
    PostedCount(s, workers, j);
    if j in s.pool.queue {
      QueuedIsNowhereElse(s, workers, j);
    }
  }

  /** In every reachable state every accepted submission has exactly one token. */
  lemma ExactlyOneToken(run: seq<State>, acts: seq<Action>, workers: set<nat>, loops: set<nat>, n: nat, j: Job)
    requires IsRun(run, acts, workers, loops) && n <= |acts| && j in run[n].pool.accepted
    ensures j.loop in run[n].loops && TokenCount(run[n], j) == 1
    ensures forall w, w' :: Holds(run[n], w, j) && Holds(run[n], w', j) ==> w == w'
  {
    RunKeepsInv(run, acts, workers, loops, n);
    hide Inv;
    OneToken(run[n], workers, j);
  }

  lemma StepAccepts(s: State, workers: set<nat>, a: Action)
    requires Enabled(s, workers, a)
    ensures var s' := Step(s, workers, a);
            && (s'.pool.stopped ==> s.pool.stopped || a == PoolStep(P.SetStopped))
            && s.pool.accepted <= s'.pool.accepted
            && (a.PoolStep? && a.p.Enqueue? && !s.pool.stopped ==> a.p.j in s'.pool.accepted)
  {
    if a.PoolStep? {
      P.StepAccepts(s.pool, a.p);
    }
  }

  lemma {:induction false} NotStopped(run: seq<State>, acts: seq<Action>, workers: set<nat>, loops: set<nat>, n: nat)
    requires IsRun(run, acts, workers, loops) && n <= |acts|
    requires forall i :: 0 <= i < n ==> acts[i] != PoolStep(P.SetStopped)
    ensures !run[n].pool.stopped
  {
    if n > 0 {
      NotStopped(run, acts, workers, loops, n - 1);
      assert Enabled(run[n - 1], workers, acts[n - 1]) && run[n] == Step(run[n - 1], workers, acts[n - 1]);
      hide IsRun, Step, Enabled;
      StepAccepts(run[n - 1], workers, acts[n - 1]);
    }
  }

  lemma {:induction false} StaysAccepted(run: seq<State>, acts: seq<Action>, workers: set<nat>, loops: set<nat>, m: nat, n: nat)
    requires IsRun(run, acts, workers, loops) && m <= n <= |acts|
    ensures run[m].pool.accepted <= run[n].pool.accepted
    decreases n
  {
    hide IsRun, Step, Enabled;
    RunStep(run, acts, workers, loops, 0);
    if m < n {
      StaysAccepted(run, acts, workers, loops, m, n - 1);
      RunStep(run, acts, workers, loops, n - 1);
      StepAccepts(run[n - 1], workers, acts[n - 1]);
    }
  }

  lemma RunStep(run: seq<State>, acts: seq<Action>, workers: set<nat>, loops: set<nat>, n: nat)
    requires IsRun(run, acts, workers, loops)
    ensures |run| == |acts| + 1
    ensures n < |acts| ==> Enabled(run[n], workers, acts[n]) && run[n + 1] == Step(run[n], workers, acts[n])
  {
  }

  /** No submission is lost: each one made before anybody stops the pool has exactly one token in every later state. */
  lemma SubmittedMeansOneToken(run: seq<State>, acts: seq<Action>, workers: set<nat>, loops: set<nat>, i: nat, n: nat, j: Job)
    requires IsRun(run, acts, workers, loops) && i < n <= |acts| && acts[i] == PoolStep(P.Enqueue(j))
    requires forall k :: 0 <= k < i ==> acts[k] != PoolStep(P.SetStopped)
    ensures j in run[n].pool.accepted && j.loop in run[n].loops && TokenCount(run[n], j) == 1
  {
    NotStopped(run, acts, workers, loops, i);
    assert Enabled(run[i], workers, acts[i]) && run[i + 1] == Step(run[i], workers, acts[i]);
    StaysAccepted(run, acts, workers, loops, i + 1, n);
    StepAccepts(run[i], workers, acts[i]);
    hide Step, Enabled, TokenCount;
    assert j in run[i + 1].pool.accepted;
    ExactlyOneToken(run, acts, workers, loops, n, j);
  }

  lemma ConsumedOnce(s: State, l: nat, i: nat)
    requires PostsOk(s) && l in s.loops && W.Conserved(s.loops[l])
    requires i < |s.loops[l].consumed| && s.loops[l].consumed[i].c.Resume?
    ensures var j := s.loops[l].consumed[i].c.job;
            && j in s.pool.dequeued && j.loop == l
            && j.id in s.results && s.results[j.id] == j.outcome
            && forall k :: 0 <= k < |s.loops[l].consumed| && s.loops[l].consumed[k].c == Resume(j) ==> k == i
  {
    var log, posted := s.loops[l].consumed, s.loops[l].posted;
    assert forall k :: 0 <= k < |log| ==> W.Callbacks(log)[k] == log[k].c && posted[k] == log[k].c;
    assert posted[i] in posted;
  }

  /** A coroutine is resumed only on the loop it named, only after the outcome it will see has been stored, and at most
      once: among everything the loop has consumed its continuation occurs at one place at most. */
  lemma ResumedOnceAfterStore(run: seq<State>, acts: seq<Action>, workers: set<nat>, loops: set<nat>, n: nat, l: nat, i: nat)
    requires IsRun(run, acts, workers, loops) && n <= |acts| && l in run[n].loops
    requires i < |run[n].loops[l].consumed| && run[n].loops[l].consumed[i].c.Resume?
    ensures var (s, j) := (run[n], run[n].loops[l].consumed[i].c.job);
            && j in s.pool.accepted && j.loop == l
            && j.id in s.results && s.results[j.id] == j.outcome
            && forall k :: 0 <= k < |s.loops[l].consumed| && s.loops[l].consumed[k].c == Resume(j) ==> k == i
  {
    RunKeepsInv(run, acts, workers, loops, n);
    assert PartsOk(run[n], workers) && JobsOk(run[n]) && PostsOk(run[n]);
    assert W.Conserved(run[n].loops[l]);
    JobPlaces(run[n], workers);
    hide Inv, PartsOk, JobsOk, PostsOk, W.Conserved;
    ConsumedOnce(run[n], l, i);
  }

  /** Delivery: once the pool has drained and the loop of a submission has nothing left to do, the continuation has been
      consumed, and it has been resumed unless a callback posted before it threw in the same drain. */
  lemma DrainedMeansDelivered(run: seq<State>, acts: seq<Action>, workers: set<nat>, loops: set<nat>, n: nat, j: Job)
    requires IsRun(run, acts, workers, loops) && n <= |acts| && j in run[n].pool.accepted
    requires run[n].pool.queue == [] && run[n].pool.running == map[]
    requires j.loop in run[n].loops && run[n].loops[j.loop].pending == [] && run[n].loops[j.loop].batch == []
    ensures var log := run[n].loops[j.loop].consumed;
            exists i :: 0 <= i < |log| && log[i].c == Resume(j)
              && (log[i].fate != W.Dropped
                  || exists k :: 0 <= k < i && log[k].fate == W.Threw && log[k].drain == log[i].drain)
  {
    var s := run[n];
    var l := s.loops[j.loop];
    RunKeepsInv(run, acts, workers, loops, n);
    ExactlyOneToken(run, acts, workers, loops, n, j);
    assert W.FatesOk(l);
    hide Inv;
    assert !Held(s, j);
    assert Count(W.Callbacks(l.consumed), Resume(j)) == 1;
    assert Resume(j) in W.Callbacks(l.consumed);
    var i :| 0 <= i < |l.consumed| && W.Callbacks(l.consumed)[i] == Resume(j);
    assert l.consumed[i].c == Resume(j);
  }
}
