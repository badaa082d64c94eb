/** What a run of the loop can be held to afterwards. Everything that changes the stop flag or the spawned tasks is one of the
    effects that coroutines, callbacks and other threads were given to perform; what they performed can be read off the
    callbacks started, the handles resumed and the waits made. */
module LoopHistory {
  import opened Wrappers
  import opened Epoll
  import opened Reactor
  import opened EventLoops

  /** Effect e has been performed between two states: by a callback started in between, by a coroutine resumed in between,
      or by another thread while the loop was waiting. */
  ghost predicate Did(l: Life, l': Life, bs: seq<Blocking>, beh: Behaviour, e: Effect)
    requires l.ran <= l'.ran
  {
    || (exists c :: c in l'.ran[|l.ran|..] && e in c.does)
    || (exists t :: t in l'.s.led.resumed && t !in l.s.led.resumed && e in beh(t))
    || (exists b :: b in bs && e in b.meanwhile)
  }

  ghost function Performed(l: Life, l': Life, bs: seq<Blocking>, beh: Behaviour): iset<Effect>
    requires l.ran <= l'.ran
  {
    iset e | Did(l, l', bs, beh, e)
  }

  ghost function Those(effs: seq<Effect>): iset<Effect> { iset e | e in effs }

  /** Task i is among the tasks and not done. */
  ghost predicate Running(l: Life, i: nat) { exists t :: t in l.tasks && t.id == i && !t.done }

  ghost predicate Ends(did: iset<Effect>, i: nat) { exists x :: End(i, x) in did }

  /** The tasks are in the order of their birth. */
  ghost predicate InOrder(l: Life) {
    && (forall p :: 0 <= p < |l.tasks| ==> l.tasks[p].id < l.born)
    && (forall p, q :: 0 <= p < q < |l.tasks| ==> l.tasks[p].id < l.tasks[q].id)
  }

  /** What the effects `did` make of flag and tasks: the flag is set exactly by a stop, a task is born exactly by a `spawn`,
      behind the others, a task goes on running exactly until it is ended, and a task that is done is done with the
      exception it was ended with. */
  ghost predicate Changed(l: Life, l': Life, did: iset<Effect>) {
    && l.born <= l'.born && (InOrder(l) ==> InOrder(l'))
    && (l'.stopped <==> l.stopped || StopLoop in did)
    && (l.born < l'.born <==> Begin in did)
    && (forall i: nat :: i < l.born ==> (Running(l', i) <==> Running(l, i) && !Ends(did, i)))
    && (forall i: nat :: l.born <= i < l'.born && !Ends(did, i) ==> Running(l', i))
    && (forall t :: t in l'.tasks ==>
          || t in l.tasks
          || (t.done && End(t.id, t.exn) in did)
          || (!t.done && t.exn.None? && l.born <= t.id < l'.born))
  }

  lemma EndsEither(d: iset<Effect>, e: iset<Effect>, i: nat)
    ensures Ends(d + e, i) <==> Ends(d, i) || Ends(e, i)
  {
    if x :| End(i, x) in d {
      assert End(i, x) in d + e;
    }
    if x :| End(i, x) in e {
      assert End(i, x) in d + e;
    }
  }

  lemma ChangedTwice(a: Life, b: Life, c: Life, d: iset<Effect>, e: iset<Effect>)
    requires Changed(a, b, d) && Changed(b, c, e)
    ensures Changed(a, c, d + e)
  {
    forall i: nat
      ensures Ends(d + e, i) <==> Ends(d, i) || Ends(e, i)
    {
      EndsEither(d, e, i);
    }
    hide Running, Ends, InOrder;
  }

  /** A step of the loop that performs nothing: flag and tasks stay. */
  lemma ChangedNot(l: Life, l': Life)
    requires l'.stopped == l.stopped && l'.tasks == l.tasks && l'.born == l.born
    ensures Changed(l, l', iset{})
  {
    assert forall i :: Running(l, i) <==> Running(l', i);
  }

  lemma ApplyRuns(l: Life, e: Effect, i: nat)
    requires i < l.born
    ensures Running(Apply(l, e), i) <==> Running(l, i) && !Ends(iset{e}, i)
  {
    var l', ended := Apply(l, e), e.End? && e.id == i;
    assert Ends(iset{e}, i) <==> ended by {
      if ended {
        assert End(i, e.exn) in iset{e};
      }
    }
    if Running(l, i) && !ended {
      var t :| t in l.tasks && t.id == i && !t.done;
      var p :| 0 <= p < |l.tasks| && l.tasks[p] == t;
      assert l'.tasks[p] == t;
    }
    if t :| t in l'.tasks && t.id == i && !t.done {
      var p :| 0 <= p < |l'.tasks| && l'.tasks[p] == t;
      assert p < |l.tasks| && l.tasks[p] in l.tasks;
    }
  }

  lemma ApplyChanges(l: Life, e: Effect)
    ensures Changed(l, Apply(l, e), iset{e})
    ensures Apply(l, e).ran == l.ran && Apply(l, e).waits == l.waits
  {
    var l' := Apply(l, e);
    forall i: nat | i < l.born
      ensures Running(l', i) <==> Running(l, i) && !Ends(iset{e}, i)
    {
      ApplyRuns(l, e, i);
    }
    forall i: nat | l.born <= i < l'.born
      ensures Running(l', i)
    {
      assert l'.tasks[|l.tasks|] == TaskRec(i, false, None);
    }
    forall t | t in l'.tasks
      ensures t in l.tasks || (t.done && End(t.id, t.exn) in iset{e}) || (!t.done && t.exn.None? && l.born <= t.id < l'.born)
    {
      var p :| 0 <= p < |l'.tasks| && l'.tasks[p] == t;
      if p < |l.tasks| {
        assert l.tasks[p] in l.tasks;
      }
    }
  }

  /** What a coroutine or a callback does resumes nobody and starts no callback. */
  lemma ApplyResumes(l: Life, e: Effect)
    ensures Apply(l, e).s.led.resumed == l.s.led.resumed
  {
  }

  lemma {:induction false} PerformChanges(l: Life, effs: seq<Effect>)
    ensures var l' := Perform(l, effs);
            && Changed(l, l', Those(effs)) && l'.ran == l.ran && l'.waits == l.waits
            && l'.s.led.resumed == l.s.led.resumed
    decreases |effs|
  {
    if effs == [] {
      ChangedNot(l, l);
      assert Those(effs) == iset{};
    } else {
      var l1 := Apply(l, effs[0]);
      ApplyChanges(l, effs[0]);
      ApplyResumes(l, effs[0]);
      hide Apply, Changed;
      PerformChanges(l1, effs[1..]);
      ChangedTwice(l, l1, Perform(l1, effs[1..]), iset{effs[0]}, Those(effs[1..]));
      assert iset{effs[0]} + Those(effs[1..]) == Those(effs);
    }
  }

  ghost function ByCallbacks(q: seq<Callback>): iset<Effect> { iset c, e | c in q && e in c.does :: e }

  lemma {:induction false} RunAllChanges(l: Life, q: seq<Callback>)
    ensures var l' := RunAll(l, q).l;
            && Changed(l, l', ByCallbacks(q[..RunCount(q)])) && l'.waits == l.waits && l'.s.led.resumed == l.s.led.resumed
    decreases |q|
  {
    if q == [] {
      ChangedNot(l, l);
      assert ByCallbacks(q[..0]) == iset{};
    } else {
      var l0 := l.(ran := l.ran + [q[0]]);
      var l1 := Perform(l0, q[0].does);
      ChangedNot(l, l0);
      PerformChanges(l0, q[0].does);
      hide Perform, Changed, Running;
      ChangedTwice(l, l0, l1, iset{}, Those(q[0].does));
      assert iset{} + Those(q[0].does) == Those(q[0].does);
      OneCallback(q[0], q[1..][..RunCount(q[1..])]);
      if q[0].throws.Some? {
        assert q[..1] == [q[0]] + [];
        OneCallback(q[0], []);
      } else {
        RunAllChanges(l1, q[1..]);
        assert q[..RunCount(q)] == [q[0]] + q[1..][..RunCount(q[1..])];
        ChangedTwice(l, l1, RunAll(l1, q[1..]).l, Those(q[0].does), ByCallbacks(q[1..][..RunCount(q[1..])]));
      }
    }
  }

  lemma OneCallback(c: Callback, q: seq<Callback>)
    ensures ByCallbacks([c] + q) == Those(c.does) + ByCallbacks(q)
    ensures q == [] ==> ByCallbacks([c] + q) == Those(c.does)
  {
    assert forall x :: x in [c] + q <==> x == c || x in q;
    forall e
      ensures e in ByCallbacks([c] + q) <==> e in Those(c.does) + ByCallbacks(q)
    {
      if e in c.does {
        assert c in [c] + q;
      }
      if e in ByCallbacks(q) {
        var x :| x in q && e in x.does;
        assert x in [c] + q;
      }
    }
  }

  ghost function ByCoroutines(taken: seq<nat>, beh: Behaviour): iset<Effect> { iset t, e | t in taken && e in beh(t) :: e }

  lemma OneCoroutine(t: nat, taken: seq<nat>, beh: Behaviour)
    ensures ByCoroutines([t] + taken, beh) == Those(beh(t)) + ByCoroutines(taken, beh)
  {
    assert forall x :: x in [t] + taken <==> x == t || x in taken;
    forall e
      ensures e in ByCoroutines([t] + taken, beh) <==> e in Those(beh(t)) + ByCoroutines(taken, beh)
    {
      if e in beh(t) {
        assert t in [t] + taken;
      }
      if e in ByCoroutines(taken, beh) {
        var x :| x in taken && e in beh(x);
        assert x in [t] + taken;
      }
    }
  }

  lemma {:induction false} ResumeAllChanges(l: Life, beh: Behaviour)
    ensures var l' := ResumeAll(l, beh);
            && Changed(l, l', ByCoroutines(l.s.taken, beh)) && l'.ran == l.ran && l'.waits == l.waits
            && l'.s.led.resumed == l.s.led.resumed + (set t | t in l.s.taken)
    decreases |l.s.taken|
  {
    var taken := l.s.taken;
    if taken == [] {
      ChangedNot(l, l);
      assert ByCoroutines(taken, beh) == iset{};
    } else {
      var l0 := l.(s := Resume(l.s));
      var l1 := Perform(l0, beh(taken[0]));
      ChangedNot(l, l0);
      PerformChanges(l0, beh(taken[0]));
      hide Perform, Changed, Running;
      ChangedTwice(l, l0, l1, iset{}, Those(beh(taken[0])));
      assert iset{} + Those(beh(taken[0])) == Those(beh(taken[0]));
      ResumeAllChanges(l1, beh);
      ChangedTwice(l, l1, ResumeAll(l1, beh), Those(beh(taken[0])), ByCoroutines(taken[1..], beh));
      OneCoroutine(taken[0], taken[1..], beh);
      assert taken == [taken[0]] + taken[1..];
      assert (set t | t in taken) == {taken[0]} + (set t | t in taken[1..]);
    }
  }

  // ------------------------------------------------- the parts of a pass

  /** From l to l', with the waits that bs lists in between, flag and tasks have changed as what was performed says. */
  ghost predicate Explained(l: Life, l': Life, bs: seq<Blocking>, beh: Behaviour) {
    && l.ran <= l'.ran && l.s.led.resumed <= l'.s.led.resumed
    && Changed(l, l', Performed(l, l', bs, beh))
  }

  lemma PerformedTwice(a: Life, b: Life, c: Life, bs: seq<Blocking>, cs: seq<Blocking>, beh: Behaviour)
    requires a.ran <= b.ran <= c.ran && a.s.led.resumed <= b.s.led.resumed <= c.s.led.resumed
    ensures Performed(a, c, bs + cs, beh) == Performed(a, b, bs, beh) + Performed(b, c, cs, beh)
  {
    var (p, q, r) := (b.ran[|a.ran|..], c.ran[|b.ran|..], c.ran[|a.ran|..]);
    assert r == p + q;
    assert forall x :: x in r <==> x in p || x in q;
    assert forall x :: x in bs + cs <==> x in bs || x in cs;
    forall e
      ensures Did(a, c, bs + cs, beh, e) <==> Did(a, b, bs, beh, e) || Did(b, c, cs, beh, e)
    {
      CallbacksTwice(p, q, e);
      MeanwhileTwice(bs, cs, e);
      ResumedTwice(a, b, c, beh, e);
    }
  }

  lemma CallbacksTwice(p: seq<Callback>, q: seq<Callback>, e: Effect)
    ensures (exists c :: c in p + q && e in c.does) <==>
            (exists c :: c in p && e in c.does) || (exists c :: c in q && e in c.does)
  {
    if x :| x in p && e in x.does {
      assert x in p + q;
    }
    if x :| x in q && e in x.does {
      assert x in p + q;
    }
  }

  lemma MeanwhileTwice(p: seq<Blocking>, q: seq<Blocking>, e: Effect)
    ensures (exists b :: b in p + q && e in b.meanwhile)
            <==> (exists b :: b in p && e in b.meanwhile) || (exists b :: b in q && e in b.meanwhile)
  {
    if x :| x in p && e in x.meanwhile {
      assert x in p + q;
    }
    if x :| x in q && e in x.meanwhile {
      assert x in p + q;
    }
  }

  ghost predicate Woke(l: Life, l': Life, beh: Behaviour, e: Effect) {
    exists t :: t in l'.s.led.resumed && t !in l.s.led.resumed && e in beh(t)
  }

  lemma ResumedTwice(a: Life, b: Life, c: Life, beh: Behaviour, e: Effect)
    requires a.s.led.resumed <= b.s.led.resumed <= c.s.led.resumed
    ensures Woke(a, c, beh, e) <==> Woke(a, b, beh, e) || Woke(b, c, beh, e)
  {
    if t :| t in c.s.led.resumed && t !in a.s.led.resumed && e in beh(t) {
      assert t in b.s.led.resumed || t !in b.s.led.resumed;
    }
  }

  lemma ExplainedTwice(a: Life, b: Life, c: Life, bs: seq<Blocking>, cs: seq<Blocking>, beh: Behaviour)
    requires Explained(a, b, bs, beh) && Explained(b, c, cs, beh)
    ensures Explained(a, c, bs + cs, beh)
  {
    hide Changed;
    ChangedTwice(a, b, c, Performed(a, b, bs, beh), Performed(b, c, cs, beh));
    PerformedTwice(a, b, c, bs, cs, beh);
  }

  lemma ExplainedOn(a: Life, b: Life, c: Life, beh: Behaviour)
    requires Explained(a, b, [], beh) && Explained(b, c, [], beh)
    ensures Explained(a, c, [], beh)
  {
    var none: seq<Blocking> := [];
    assert none + none == none;
    hide Explained;
    ExplainedTwice(a, b, c, none, none, beh);
  }

  /** The loop moves on without running anything. */
  lemma ExplainedNot(l: Life, l': Life, beh: Behaviour)
    requires l'.stopped == l.stopped && l'.tasks == l.tasks && l'.born == l.born && l'.ran == l.ran
    requires l'.s.led.resumed == l.s.led.resumed
    ensures Explained(l, l', [], beh)
  {
    ChangedNot(l, l');
    hide Changed;
    assert l'.ran[|l.ran|..] == [];
    assert Performed(l, l', [], beh) == iset{};
  }

  lemma CollectedExplained(l: Life, beh: Behaviour)
    ensures Explained(l, Collected(l).l, [], beh) && Collected(l).l.waits == l.waits
    ensures Collected(l).l.s.led.resumed == l.s.led.resumed
  {
    var l0, d := l.(pending := []), Drained(l);
    ExplainedNot(l, l0, beh);
    RunAllChanges(l0, l.pending);
    DrainRuns(l);
    var done := l.pending[..RunCount(l.pending)];
    assert d.l.ran[|l.ran|..] == done;
    assert Performed(l0, d.l, [], beh) == ByCallbacks(done);
    assert Explained(l0, d.l, [], beh);
    ExplainedOn(l, l0, d.l, beh);
    if d.thrown.None? {
      CompactedExplained(d.l, beh);
      hide Drained, Compacted, Explained;
      ExplainedOn(l, d.l, Compacted(d.l).l, beh);
    }
  }

  /** A compaction takes nothing away from a task that runs. */
  lemma CompactedExplained(l: Life, beh: Behaviour)
    ensures var l' := Compacted(l).l;
            Explained(l, l', [], beh) && l'.waits == l.waits && l'.s.led.resumed == l.s.led.resumed
  {
    var l' := Compacted(l).l;
    CompactedExactly(l);
    hide Compacted;
    assert l'.ran[|l.ran|..] == [];
    assert Performed(l, l', [], beh) == iset{};
    if Compacted(l).thrown.Some? {
      ChangedNot(l, l');
    } else {
      ErasedChanges(l, l');
    }
  }

  lemma ErasedInOrder(l: Life, l': Life)
    requires OnlyDoneErased(l.tasks, l'.tasks) && l'.born == l.born
    ensures InOrder(l) ==> InOrder(l')
  {
    var at :| KeptAt(l.tasks, l'.tasks, at);
    hide OnlyDoneErased;
  }

  lemma ErasedChanges(l: Life, l': Life)
    requires OnlyDoneErased(l.tasks, l'.tasks) && l' == l.(tasks := l'.tasks)
    ensures Changed(l, l', iset{})
  {
    ErasedInOrder(l, l');
    hide InOrder, KeptAt;
    forall t | t in l'.tasks
      ensures t in l.tasks
    {
      assert multiset(l'.tasks)[t] > 0;
      assert multiset(l.tasks)[t] > 0;
    }
    forall i: nat
      ensures Running(l', i) <==> Running(l, i)
    {
      if Running(l, i) {
        var t :| t in l.tasks && t.id == i && !t.done;
        assert multiset(l.tasks)[t] > 0;
        assert t in multiset(l'.tasks);
      }
    }
  }

  lemma TakenAreFresh(l: Life)
    requires Sound(l) && l.s.batch != [] && l.s.taken == []
    ensures var s' := Take(l.s);
            s'.led.resumed == l.s.led.resumed && forall t :: t in s'.taken ==> t !in s'.led.resumed
  {
    StepKeepsInv(l.s, TakeEvent);
    assert Linear(Take(l.s));
    assert forall t :: t in Take(l.s).taken ==> !Past(Take(l.s).led, t);
  }

  lemma ClientExplained(l: Life, beh: Behaviour)
    requires Sound(l) && l.s.batch != [] && l.s.taken == []
    ensures Explained(l, DispatchOne(l, beh), [], beh) && DispatchOne(l, beh).waits == l.waits
  {
    hide Inv, Take, Sound, ResumeAll;
    var l0 := l.(s := Take(l.s));
    var l' := ResumeAll(l0, beh);
    TakenAreFresh(l);
    ExplainedNot(l, l0, beh);
    ResumeAllChanges(l0, beh);
    assert l'.ran[|l0.ran|..] == [];
    assert forall e :: Did(l0, l', [], beh, e) <==> e in ByCoroutines(l0.s.taken, beh);
    assert Performed(l0, l', [], beh) == ByCoroutines(l0.s.taken, beh);
    hide Changed, Performed, ByCoroutines;
    ExplainedOn(l, l0, l', beh);
  }

  lemma DispatchedExplained(l: Life, beh: Behaviour)
    requires Sound(l) && l.s.batch != [] && l.s.taken == []
    ensures Explained(l, Dispatched(l, beh), [], beh) && Dispatched(l, beh).waits == l.waits
  {
    hide Sound, Explained, DispatchOne, Collected;
    if l.s.batch[0].fd == l.s.wake {
      var l0 := l.(s := Step(Take(l.s), ConsumeFd(l.s.wake, WAKEUP)));
      ExplainedNot(l, l0, beh);
      CollectedExplained(l0, beh);
      ExplainedOn(l, l0, Collected(l0).l, beh);
    } else {
      ClientExplained(l, beh);
    }
  }

  lemma {:induction false} DispatchAllExplained(l: Life, beh: Behaviour)
    requires Sound(l) && l.s.taken == []
    ensures Explained(l, DispatchAll(l, beh), [], beh) && DispatchAll(l, beh).waits == l.waits
    decreases |l.s.batch|
  {
    if l.s.batch == [] {
      ExplainedNot(l, l, beh);
    } else {
      var l1 := Dispatched(l, beh);
      DispatchedExplained(l, beh);
      DispatchedSound(l, beh);
      hide Sound, Explained, Dispatched;
      DispatchAllExplained(l1, beh);
      ExplainedOn(l, l1, DispatchAll(l1, beh), beh);
    }
  }

  // -------------------------------------------------------------- whole runs

  /** What one pass does and serves. It waits exactly once unless the head throws, and then dispatches what the wait reports
      exactly if no signal has interrupted it; before that it runs the callbacks that were pending, and erases the tasks that
      are done. */
  lemma PassServes(l: Life, b: Blocking, beh: Behaviour)
    requires Sound(l) && l.s.batch == [] && l.s.taken == [] && !l.stopped
    ensures var (p, h) := (Pass(l, b, beh), Head(l));
            && p.thrown == h.thrown && p.l.waits == l.waits + (if p.thrown.Some? then 0 else 1)
            && l.ran + l.pending[..RunCount(l.pending)] <= p.l.ran
            && (p.thrown.None? ==>
                  var w := Perform(h.l, b.meanwhile);
                  && Sound(p.l)
                  && (b.interrupted ==> p.l.s == w.s && p.l.ran == w.ran)
                  && (!b.interrupted ==> forall fd, d, t :: Due(w.s, fd, d, t) && Pos(w.s.k.rdl, fd) < MAX_EVENTS ==>
                                           Past(p.l.s.led, t)))
            && (Collected(l).thrown.None? ==> OnlyDoneErased(Drained(l).l.tasks, h.l.tasks))
  {
    hide Pass, Head, Collected, Drained, Compacted, Sound, Perform, Turn, OnlyDoneErased, Explained, Changed, Due, Past;
    HeadLeavesAwake(l, b);
    PassParts(l, b, beh);
    HeadParts(l, beh);
    var h := Head(l);
    if h.thrown.None? {
      var w := Perform(h.l, b.meanwhile);
      PerformChanges(h.l, b.meanwhile);
      WaitsDoNotMatter(w, w.waits + 1);
      if !b.interrupted {
        TurnServes(w, beh);
        TurnWaits(w, beh);
      }
    }
  }

  lemma PassParts(l: Life, b: Blocking, beh: Behaviour)
    requires l.s.batch == [] && l.s.taken == []
    ensures var (p, h) := (Pass(l, b, beh), Head(l));
            var w := Perform(h.l, b.meanwhile);
            && p.thrown == h.thrown && w.s.batch == [] && w.s.taken == []
            && p.l == if h.thrown.Some? then h.l else if b.interrupted then w.(waits := w.waits + 1) else Turn(w, beh)
  {
    hide Head, Perform, Turn;
  }

  lemma HeadParts(l: Life, beh: Behaviour)
    ensures var h := Head(l);
            && h.l.ran == l.ran + l.pending[..RunCount(l.pending)] && h.l.waits == l.waits
            && (Collected(l).thrown.None? ==> OnlyDoneErased(Drained(l).l.tasks, h.l.tasks))
  {
    CollectedRuns(l);
    CollectedExplained(l, beh);
    CompactedExactly(Drained(l).l);
    hide Drained, Compacted, OnlyDoneErased, ThrownFirst, Explained;
  }

  lemma TurnWaits(l: Life, beh: Behaviour)
    requires Sound(l) && l.s.batch == [] && l.s.taken == []
    ensures Turn(l, beh).waits == l.waits + 1 && l.ran <= Turn(l, beh).ran && Explained(l, Turn(l, beh), [], beh)
  {
    var l1 := Waited(l);
    WaitedSound(l);
    assert l1.s.led == l.s.led && l1.s.taken == [];
    hide Sound, Waited, Dispatched, DispatchAll, Explained;
    ExplainedNot(l, l1, beh);
    DispatchAllExplained(l1, beh);
    ExplainedOn(l, l1, Turn(l, beh), beh);
    ExplainedRan(l, Turn(l, beh), beh);
  }

  lemma ExplainedRan(l: Life, l': Life, beh: Behaviour)
    requires Explained(l, l', [], beh)
    ensures l.ran <= l'.ran
  {
  }

  lemma WaitedSound(l: Life)
    requires Sound(l) && l.s.batch == [] && l.s.taken == []
    ensures Sound(Waited(l))
  {
    StepKeepsInv(l.s, WaitEvents);
    WaitKeepsWake(l.s);
  }

  /** Other threads act while the loop waits. */
  lemma MeanwhileExplained(l: Life, b: Blocking, beh: Behaviour)
    ensures Explained(l, Perform(l, b.meanwhile), [b], beh)
    ensures var w := Perform(l, b.meanwhile); Explained(l, w.(waits := w.waits + 1), [b], beh)
  {
    var w := Perform(l, b.meanwhile);
    PerformChanges(l, b.meanwhile);
    hide Perform;
    assert w.ran[|l.ran|..] == [] && b in [b];
    assert Performed(l, w, [b], beh) == Those(b.meanwhile);
    assert Performed(l, w.(waits := w.waits + 1), [b], beh) == Those(b.meanwhile);
  }

  lemma PassExplained(l: Life, b: Blocking, beh: Behaviour)
    requires Sound(l) && l.s.batch == [] && l.s.taken == [] && !l.stopped
    ensures var p := Pass(l, b, beh); Explained(l, p.l, if p.thrown.None? then [b] else [], beh)
  {
    hide Sound, Explained, Perform, Turn, Collected;
    var h := Head(l);
    CollectedExplained(l, beh);
    HeadLeavesAwake(l, b);
    if h.thrown.None? {
      var w, one, none := Perform(h.l, b.meanwhile), [b], [];
      MeanwhileExplained(h.l, b, beh);
      assert none + one == one && one + none == one;
      if b.interrupted {
        ExplainedTwice(l, h.l, Pass(l, b, beh).l, none, one, beh);
      } else {
        TurnWaits(w, beh);
        ExplainedTwice(l, h.l, w, none, one, beh);
        ExplainedTwice(l, w, Turn(w, beh), one, none, beh);
      }
    }
  }

  /** How a run ends, exactly. It makes one wait after another, interrupted or not, as many as it is given, unless it is
      stopped or throws; and it is stopped if and only if it was at the beginning, or `stop` was called: by a callback it
      started, by a coroutine it resumed, or by another thread during one of its waits. In the same way a task is born
      exactly by a `spawn`, goes on running unless it is ended, and is erased only when it is done. */
  lemma {:induction false} RunIsExplained(l: Life, env: seq<Blocking>, beh: Behaviour)
    requires Sound(l) && l.s.batch == [] && l.s.taken == []
    ensures var r := Passes(l, env, beh);
            && l.waits <= r.l.waits <= l.waits + |env|
            && (r.thrown.None? && !r.l.stopped ==> r.l.waits == l.waits + |env|)
            && Explained(l, r.l, env[..r.l.waits - l.waits], beh)
    decreases |env|
  {
    hide Sound, Explained, Pass;
    if env == [] || l.stopped {
      ExplainedNot(l, l, beh);
    } else {
      var p := Pass(l, env[0], beh);
      PassServes(l, env[0], beh);
      PassExplained(l, env[0], beh);
      if p.thrown.None? {
        RunIsExplained(p.l, env[1..], beh);
        var r := Passes(p.l, env[1..], beh);
        var k := r.l.waits - p.l.waits;
        assert env[..k + 1] == [env[0]] + env[1..][..k];
        ExplainedTwice(l, p.l, r.l, [env[0]], env[1..][..k], beh);
      }
    }
  }

  /** The stop flag, spelled out. */
  lemma StoppedExactly(l: Life, env: seq<Blocking>, beh: Behaviour)
    requires Sound(l) && l.s.batch == [] && l.s.taken == []
    ensures var r := Passes(l, env, beh);
            && l.ran <= r.l.ran && 0 <= r.l.waits - l.waits <= |env|
            && (r.l.stopped <==>
                  || l.stopped
                  || (exists c :: c in r.l.ran[|l.ran|..] && StopLoop in c.does)
                  || (exists t :: t in r.l.s.led.resumed && t !in l.s.led.resumed && StopLoop in beh(t))
                  || (exists b :: b in env[..r.l.waits - l.waits] && StopLoop in b.meanwhile))
  {
    hide Passes, Sound, Explained;
    RunIsExplained(l, env, beh);
    var r := Passes(l, env, beh);
    ExplainedStop(l, r.l, env[..r.l.waits - l.waits], beh);
  }

  lemma ExplainedStop(l: Life, l': Life, bs: seq<Blocking>, beh: Behaviour)
    requires Explained(l, l', bs, beh)
    ensures l.ran <= l'.ran && (l'.stopped <==> l.stopped || Did(l, l', bs, beh, StopLoop))
  {
  }

  // ------------------------------------------- a run of the loop, in the reactor

  /** The reactor can get from s to s' by steps of its own. */
  ghost predicate Reaches(s: State, s': State) {
    exists run: seq<State>, acts: seq<Action> :: IsRun(run, acts) && run[0] == s && run[|acts|] == s'
  }

  lemma ReachesSelf(s: State)
    ensures Reaches(s, s)
  {
    var run: seq<State>, acts: seq<Action> := [s], [];
    assert IsRun(run, acts) && run[|acts|] == s;
  }

  lemma ReachesStep(s: State, a: Action)
    requires Enabled(s, a)
    ensures Reaches(s, Step(s, a))
  {
    var run, acts := [s, Step(s, a)], [a];
    hide Step, Enabled;
    assert IsRun(run, acts) && run[|acts|] == Step(s, a);
  }

  lemma StepOfRun(run: seq<State>, acts: seq<Action>, i: nat)
    requires IsRun(run, acts) && i < |acts|
    ensures |run| == |acts| + 1 && Enabled(run[i], acts[i]) && run[i + 1] == Step(run[i], acts[i])
  {
  }

  lemma StepsAreRun(run: seq<State>, acts: seq<Action>)
    requires |run| == |acts| + 1
    requires forall i :: 0 <= i < |acts| ==> Enabled(run[i], acts[i]) && run[i + 1] == Step(run[i], acts[i])
    ensures IsRun(run, acts)
  {
  }

  lemma ReachesNext(a: State, b: State, act: Action)
    requires Reaches(a, b) && Enabled(b, act)
    ensures Reaches(a, Step(b, act))
  {
    var run, acts: seq<Action> :| IsRun(run, acts) && run[0] == a && run[|acts|] == b;
    hide IsRun, Step, Enabled;
    RunLength(run, acts);
    var run', acts' := run + [Step(b, act)], acts + [act];
    forall i | 0 <= i < |acts'|
      ensures Enabled(run'[i], acts'[i]) && run'[i + 1] == Step(run'[i], acts'[i])
    {
      if i < |acts| {
        StepOfRun(run, acts, i);
      }
    }
    StepsAreRun(run', acts');
  }

  lemma {:induction false} ReachesAll(a: State, run: seq<State>, acts: seq<Action>, n: nat)
    requires IsRun(run, acts) && n <= |acts| && Reaches(a, run[0])
    ensures Reaches(a, run[n])
  {
    hide IsRun, Step, Enabled, Reaches;
    RunLength(run, acts);
    if n > 0 {
      ReachesAll(a, run, acts, n - 1);
      StepOfRun(run, acts, n - 1);
      ReachesNext(a, run[n - 1], acts[n - 1]);
    }
  }

  lemma ReachesTwice(a: State, b: State, c: State)
    requires Reaches(a, b) && Reaches(b, c)
    ensures Reaches(a, c)
  {
    var run, acts: seq<Action> :| IsRun(run, acts) && run[0] == b && run[|acts|] == c;
    hide IsRun, Reaches;
    ReachesAll(a, run, acts, |acts|);
  }

  lemma {:induction false} PerformReaches(l: Life, effs: seq<Effect>)
    ensures Reaches(l.s, Perform(l, effs).s)
    decreases |effs|
  {
    ReachesSelf(l.s);
    if effs != [] {
      var a, l1 := ActionOf(effs[0], l.s.wake), Apply(l, effs[0]);
      if a.Some? && Outside(l.s, a.value) {
        ReachesStep(l.s, a.value);
      }
      assert Reaches(l.s, l1.s);
      hide Reaches, Apply;
      PerformReaches(l1, effs[1..]);
      ReachesTwice(l.s, l1.s, Perform(l1, effs[1..]).s);
    }
  }

  lemma {:induction false} RunAllReaches(l: Life, q: seq<Callback>)
    ensures Reaches(l.s, RunAll(l, q).l.s)
    decreases |q|
  {
    hide Reaches, Perform;
    ReachesSelf(l.s);
    if q != [] {
      var l1 := Perform(l.(ran := l.ran + [q[0]]), q[0].does);
      PerformReaches(l.(ran := l.ran + [q[0]]), q[0].does);
      if q[0].throws.None? {
        RunAllReaches(l1, q[1..]);
        ReachesTwice(l.s, l1.s, RunAll(l1, q[1..]).l.s);
      }
    }
  }

  lemma {:induction false} ResumeAllReaches(l: Life, beh: Behaviour)
    ensures Reaches(l.s, ResumeAll(l, beh).s)
    decreases |l.s.taken|
  {
    hide Reaches, Perform;
    ReachesSelf(l.s);
    if l.s.taken != [] {
      var l0 := l.(s := Resume(l.s));
      var l1 := Perform(l0, beh(l.s.taken[0]));
      ReachesStep(l.s, ResumeTaken);
      PerformReaches(l0, beh(l.s.taken[0]));
      ReachesTwice(l.s, l0.s, l1.s);
      ResumeAllReaches(l1, beh);
      ReachesTwice(l.s, l1.s, ResumeAll(l1, beh).s);
    }
  }

  lemma DispatchedReaches(l: Life, beh: Behaviour)
    requires l.s.batch != [] && l.s.taken == []
    ensures Reaches(l.s, Dispatched(l, beh).s) && Dispatched(l, beh).s.taken == []
  {
    hide Reaches, RunAll, ResumeAll, Take, Compacted;
    var s1 := Take(l.s);
    ReachesStep(l.s, TakeEvent);
    if l.s.batch[0].fd == l.s.wake {
      var a := ConsumeFd(l.s.wake, WAKEUP);
      var l2 := l.(s := Step(s1, a));
      WakeupTake(l.s);
      ReachesStep(s1, a);
      ReachesTwice(l.s, s1, l2.s);
      RunAllReaches(l2.(pending := []), l2.pending);
      CompactedTouchesNothing(Drained(l2).l);
      ReachesTwice(l.s, l2.s, Drained(l2).l.s);
    } else {
      ResumeAllReaches(l.(s := s1), beh);
      ReachesTwice(l.s, s1, ResumeAll(l.(s := s1), beh).s);
    }
  }

  lemma CompactedTouchesNothing(l: Life)
    ensures Compacted(l).l.s == l.s
  {
  }

  lemma {:induction false} DispatchAllReaches(l: Life, beh: Behaviour)
    requires l.s.taken == []
    ensures Reaches(l.s, DispatchAll(l, beh).s)
    decreases |l.s.batch|
  {
    hide Reaches, Dispatched;
    ReachesSelf(l.s);
    if l.s.batch != [] {
      DispatchedReaches(l, beh);
      DispatchAllReaches(Dispatched(l, beh), beh);
      ReachesTwice(l.s, Dispatched(l, beh).s, DispatchAll(Dispatched(l, beh), beh).s);
    }
  }

  lemma WaitedTaken(l: Life)
    requires l.s.batch == [] && l.s.taken == []
    ensures Waited(l).s.taken == []
  {
  }

  lemma PassReaches(l: Life, b: Blocking, beh: Behaviour)
    requires l.s.batch == [] && l.s.taken == []
    ensures Reaches(l.s, Pass(l, b, beh).l.s)
  {
    hide Reaches, RunAll, Perform, DispatchAll, Compacted, Step;
    RunAllReaches(l.(pending := []), l.pending);
    CompactedTouchesNothing(Drained(l).l);
    var h := Head(l);
    if h.thrown.None? {
      var w := Perform(h.l, b.meanwhile);
      PerformReaches(h.l, b.meanwhile);
      ReachesTwice(l.s, h.l.s, w.s);
      if !b.interrupted {
        ReachesStep(w.s, WaitEvents);
        WaitedTaken(w);
        ReachesTwice(l.s, w.s, Waited(w).s);
        DispatchAllReaches(Waited(w), beh);
        ReachesTwice(l.s, Waited(w).s, Turn(w, beh).s);
      }
    }
  }

  /** A run of the object is a run of the reactor, whatever coroutines, callbacks and other threads do: what is proved of the
      reactor's runs holds of it. */
  lemma {:induction false} RunIsReactorRun(l: Life, env: seq<Blocking>, beh: Behaviour)
    requires l.s.batch == [] && l.s.taken == []
    ensures Reaches(l.s, Passes(l, env, beh).l.s)
    decreases |env|
  {
    hide Reaches, Pass;
    ReachesSelf(l.s);
    if env != [] && !l.stopped {
      var p := Pass(l, env[0], beh);
      PassReaches(l, env[0], beh);
      if p.thrown.None? {
        RunIsReactorRun(p.l, env[1..], beh);
        ReachesTwice(l.s, p.l.s, Passes(p.l, env[1..], beh).l.s);
      }
    }
  }

  // ---------------------------------------------- what is done from the inside

  ghost predicate AwaitsNothing(effs: seq<Effect>, fd: int) {
    forall e :: e in effs && e.Act? ==> !(e.a.AwaitFd? && e.a.fd == fd)
  }

  ghost predicate Unwatched(s: State, fd: int) { s.Slot(fd, Read) == None && s.Slot(fd, Write) == None }

  lemma StepKeepsUnwatched(s: State, a: Action, fd: int)
    requires Inv(s) && Enabled(s, a) && Unwatched(s, fd) && !(a.AwaitFd? && a.fd == fd)
    ensures Unwatched(Step(s, a), fd)
  {
    match a
    case AwaitFd(x, d, et) => AwaitSlots(s, x, d, et); hide Await;
    case RemoveFd(x) => RemoveSlots(s, x); hide Remove;
    case TakeEvent => TakeSlots(s); hide Take;
    case _ =>
  }

  lemma {:induction false} PerformKeepsUnwatched(l: Life, effs: seq<Effect>, fd: int)
    requires Inv(l.s) && WakeQueued(l.s) && Unwatched(l.s, fd) && AwaitsNothing(effs, fd)
    ensures Unwatched(Perform(l, effs).s, fd)
    decreases |effs|
  {
    if effs != [] {
      var a, l1 := ActionOf(effs[0], l.s.wake), Apply(l, effs[0]);
      assert effs[0] in effs && AwaitsNothing(effs[1..], fd);
      if a.Some? && Outside(l.s, a.value) {
        StepKeepsUnwatched(l.s, a.value, fd);
      }
      assert Unwatched(l1.s, fd);
      ApplySound(l, effs[0]);
      hide Inv, Apply, WakeQueued, AwaitsNothing, Unwatched;
      PerformKeepsUnwatched(l1, effs[1..], fd);
    }
  }

  lemma {:induction false} ResumeAllKeepsUnwatched(l: Life, beh: Behaviour, fd: int)
    requires Sound(l) && Unwatched(l.s, fd) && forall t :: t in l.s.taken ==> AwaitsNothing(beh(t), fd)
    ensures Unwatched(ResumeAll(l, beh).s, fd)
    decreases |l.s.taken|
  {
    if l.s.taken != [] {
      var t, l1 := l.s.taken[0], l.(s := Resume(l.s));
      StepKeepsInv(l.s, ResumeTaken);
      StepKeepsUnwatched(l.s, ResumeTaken, fd);
      assert Sound(l1) && t in l.s.taken;
      assert forall x :: x in l1.s.taken ==> x in l.s.taken;
      hide Inv, AwaitsNothing, Unwatched;
      PerformKeepsUnwatched(l1, beh(t), fd);
      PerformSound(l1, beh(t));
      hide Sound, WakeQueued, Perform;
      ResumeAllKeepsUnwatched(Perform(l1, beh(t)), beh, fd);
    }
  }

  /** A `remove` from inside a resumption forgets the waiters of its descriptor there and then: at the end of the dispatch
      nobody waits on it, unless a coroutine has awaited it again. */
  lemma RemoveInsideForgets(l: Life, beh: Behaviour, before: seq<Effect>, fd: int, after: seq<Effect>)
    requires Sound(l) && l.s.taken != [] && beh(l.s.taken[0]) == before + [Act(RemoveFd(fd))] + after && fd != l.s.wake
    requires AwaitsNothing(after, fd) && forall t :: t in l.s.taken[1..] ==> AwaitsNothing(beh(t), fd)
    ensures Unwatched(ResumeAll(l, beh).s, fd)
  {
    var l1, e := l.(s := Resume(l.s)), Act(RemoveFd(fd));
    var m := Perform(l1, before);
    StepKeepsInv(l.s, ResumeTaken);
    assert Sound(l1);
    PerformSound(l1, before);
    RemoveEmpties(m, fd);
    ApplySound(m, e);
    hide Inv, Apply, Sound, WakeQueued, AwaitsNothing, Unwatched;
    PerformSplit(l1, before + [e], after);
    PerformSplit(l1, before, [e]);
    PerformSingle(m, e);
    PerformKeepsUnwatched(Apply(m, e), after, fd);
    PerformSound(Apply(m, e), after);
    ResumeAllKeepsUnwatched(Perform(Apply(m, e), after), beh, fd);
  }

  lemma RemoveEmpties(l: Life, fd: int)
    requires Inv(l.s) && fd != l.s.wake
    ensures Unwatched(Apply(l, Act(RemoveFd(fd))).s, fd)
  {
    RemoveSlots(l.s, fd);
    hide Remove;
  }

  // ------------------------------------------------ the eventfd is used up

  /** Effects that make the eventfd readable. */
  predicate Signals(e: Effect, wake: int) {
    e.PostBack? || e.StopLoop? || (e.Act? && e.a.SignalFd? && e.a.fd == wake && e.a.bits.rd)
  }

  ghost predicate Readable(s: State)
    requires s.wake in s.k.ready
  {
    s.k.ready[s.wake].rd
  }

  lemma ApplySignals(l: Life, e: Effect)
    requires Inv(l.s) && WakeQueued(l.s)
    ensures var l' := Apply(l, e);
            l'.s.wake == l.s.wake && l'.s.wake in l'.s.k.ready && (Readable(l'.s) <==> Readable(l.s) || Signals(e, l.s.wake))
  {
    ApplySound(l, e);
    var a := ActionOf(e, l.s.wake);
    if a.Some? && Outside(l.s, a.value) {
      StepReadable(l.s, a.value);
    }
    hide Inv, Step;
  }

  lemma StepReadable(s: State, a: Action)
    requires s.wake in s.k.ready && Outside(s, a) && Inv(s)
    ensures var s' := Step(s, a);
            && s'.wake == s.wake && s'.wake in s'.k.ready
            && (Readable(s') <==> Readable(s) || (a.SignalFd? && a.fd == s.wake && a.bits.rd))
  {
  }

  lemma {:induction false} PerformSignals(l: Life, effs: seq<Effect>)
    requires Inv(l.s) && WakeQueued(l.s)
    ensures var l' := Perform(l, effs);
            && l'.s.wake in l'.s.k.ready
            && (Readable(l'.s) <==> Readable(l.s) || exists e :: e in effs && Signals(e, l.s.wake))
    decreases |effs|
  {
    if effs != [] {
      ApplySignals(l, effs[0]);
      ApplySound(l, effs[0]);
      hide Inv, WakeQueued, Apply, Signals, Readable;
      PerformSignals(Apply(l, effs[0]), effs[1..]);
      assert forall e :: e in effs <==> e == effs[0] || e in effs[1..];
    }
  }

  /** Some callback of the batch makes the eventfd readable. */
  ghost predicate CallbackSignals(q: seq<Callback>, wake: int) {
    exists c, e :: c in q && e in c.does && Signals(e, wake)
  }

  lemma OneSignals(l: Life, c: Callback)
    requires Sound(l)
    ensures var l1 := Perform(l.(ran := l.ran + [c]), c.does);
            && Sound(l1) && l1.s.wake == l.s.wake && l.s.wake in l.s.k.ready && l1.s.wake in l1.s.k.ready
            && (Readable(l1.s) <==> Readable(l.s) || exists e :: e in c.does && Signals(e, l.s.wake))
  {
    var l0 := l.(ran := l.ran + [c]);
    PerformSignals(l0, c.does);
    PerformSound(l0, c.does);
    hide Inv, Perform, Signals;
  }

  lemma {:induction false} RunAllSignals(l: Life, q: seq<Callback>)
    requires Sound(l)
    ensures var l' := RunAll(l, q).l;
            && l'.s.wake in l'.s.k.ready
            && (Readable(l'.s) <==> Readable(l.s) || CallbackSignals(q[..RunCount(q)], l.s.wake))
    decreases |q|
  {
    hide Perform, Signals, Readable, CallbackSignals;
    if q == [] {
      NoSignals(l.s.wake);
    } else {
      OneSignals(l, q[0]);
      hide Sound;
      var done := if q[0].throws.Some? then [] else q[1..][..RunCount(q[1..])];
      SignalsMore(q[0], done, l.s.wake);
      assert q[..RunCount(q)] == [q[0]] + done;
      if q[0].throws.Some? {
        NoSignals(l.s.wake);
      } else {
        RunAllSignals(Perform(l.(ran := l.ran + [q[0]]), q[0].does), q[1..]);
      }
    }
  }

  lemma NoSignals(wake: int)
    ensures !CallbackSignals([], wake)
  {
  }

  lemma SignalsMore(c: Callback, q: seq<Callback>, wake: int)
    ensures CallbackSignals([c] + q, wake) <==> (exists e :: e in c.does && Signals(e, wake)) || CallbackSignals(q, wake)
  {
    assert forall x :: x in [c] + q <==> x == c || x in q;
    hide Signals;
    if e :| e in c.does && Signals(e, wake) {
      assert c in [c] + q;
    }
    if x, e :| x in q && e in x.does && Signals(e, wake) {
      assert x in [c] + q;
    }
  }

  /** A wakeup is used up by the dispatch it causes: afterwards the eventfd is readable if and only if one of the callbacks
      run by that dispatch has posted, stopped, or written to it. The loop does not spin on old posts. */
  lemma WakeupIsUsedUp(l: Life, beh: Behaviour)
    requires Sound(l) && l.s.batch != [] && l.s.batch[0].fd == l.s.wake && l.s.taken == []
    ensures var l' := Dispatched(l, beh);
            && l'.s.wake in l'.s.k.ready
            && (Readable(l'.s) <==> CallbackSignals(l.pending[..RunCount(l.pending)], l.s.wake))
  {
    var a := ConsumeFd(l.s.wake, WAKEUP);
    var l0 := l.(s := Step(Take(l.s), a), pending := []);
    WakeupUnread(l);
    hide Sound, Step, Take, RunAll, Readable;
    RunAllSignals(l0, l.pending);
  }

  lemma WakeupUnread(l: Life)
    requires Sound(l) && l.s.batch != [] && l.s.batch[0].fd == l.s.wake && l.s.taken == []
    ensures var l0 := l.(s := Step(Take(l.s), ConsumeFd(l.s.wake, WAKEUP)), pending := []);
            Sound(l0) && l0.s.wake == l.s.wake && l0.s.wake in l0.s.k.ready && !Readable(l0.s)
  {
    StepKeepsInv(l.s, TakeEvent);
    TakeKeepsWake(l.s);
    WakeupTake(l.s);
    StepKeepsInv(Take(l.s), ConsumeFd(l.s.wake, WAKEUP));
    hide Inv;
  }

  /** The wakeup event also collects the tasks that are done by then, unless something throws. */
  lemma WakeupCollects(l: Life, beh: Behaviour)
    requires l.s.batch != [] && l.s.batch[0].fd == l.s.wake
    ensures var d := Drained(l.(s := Step(Take(l.s), ConsumeFd(l.s.wake, WAKEUP))));
            var l' := Dispatched(l, beh);
            if d.thrown.Some? || exists t :: t in d.l.tasks && t.Foreign() then l' == d.l
            else OnlyDoneErased(d.l.tasks, l'.tasks) && l' == d.l.(tasks := l'.tasks)
  {
    var d := Drained(l.(s := Step(Take(l.s), ConsumeFd(l.s.wake, WAKEUP))));
    hide Drained, Take, Compacted, OnlyDoneErased;
    CompactedExactly(d.l);
  }

  // ------------------------------------------------- a loop that nobody stops

  /** Neither these effects nor the callbacks they post, nor what those post in turn, call `stop`. */
  ghost predicate Tame(effs: seq<Effect>) { forall e :: e in effs ==> TameEffect(e) }

  ghost predicate TameEffect(e: Effect) {
    match e
    case StopLoop => false
    case PostBack(c) => forall i :: 0 <= i < |c.does| ==> TameEffect(c.does[i])
    case _ => true
  }

  ghost predicate TameQueue(q: seq<Callback>) { forall c :: c in q ==> Tame(c.does) }

  /** Everything pending is tame, and so was every callback that has been started since l. */
  ghost predicate StaysTame(l: Life, l': Life) {
    l.ran <= l'.ran && TameQueue(l'.pending) && TameQueue(l'.ran[|l.ran|..])
  }

  lemma {:induction false} PostsTame(effs: seq<Effect>)
    requires Tame(effs)
    ensures TameQueue(PostsOf(effs)) && StopLoop !in effs
    decreases |effs|
  {
    if effs != [] {
      assert TameEffect(effs[0]);
      PostsTame(effs[1..]);
    }
  }

  lemma {:induction false} AllPostsTame(q: seq<Callback>)
    requires TameQueue(q)
    ensures TameQueue(AllPosts(q))
  {
    if q != [] {
      PostsTame(q[0].does);
      AllPostsTame(q[1..]);
    }
  }

  lemma PerformTame(l: Life, effs: seq<Effect>)
    requires TameQueue(l.pending) && Tame(effs)
    ensures StaysTame(l, Perform(l, effs))
  {
    PerformPosts(l, effs);
    PostsTame(effs);
  }

  lemma TameTwice(a: Life, b: Life, c: Life)
    requires StaysTame(a, b) && StaysTame(b, c)
    ensures StaysTame(a, c)
  {
    assert c.ran[|a.ran|..] == b.ran[|a.ran|..] + c.ran[|b.ran|..];
  }

  lemma CollectedTame(l: Life)
    requires TameQueue(l.pending)
    ensures StaysTame(l, Collected(l).l)
  {
    var done := l.pending[..RunCount(l.pending)];
    CollectedRuns(l);
    AllPostsTame(done);
    assert Collected(l).l.ran[|l.ran|..] == done;
    hide Tame, Collected;
  }

  lemma {:induction false} ResumeAllTame(l: Life, beh: Behaviour)
    requires TameQueue(l.pending) && forall t :: Tame(beh(t))
    ensures StaysTame(l, ResumeAll(l, beh))
    decreases |l.s.taken|
  {
    if l.s.taken != [] {
      var l0 := l.(s := Resume(l.s));
      var l1 := Perform(l0, beh(l.s.taken[0]));
      PerformTame(l0, beh(l.s.taken[0]));
      assert StaysTame(l, l1);
      hide Perform, StaysTame, Tame;
      ResumeAllTame(l1, beh) by {
        assert TameQueue(l1.pending) by { TameNow(l, l1); }
      }
      TameTwice(l, l1, ResumeAll(l1, beh));
    }
  }

  lemma TameNow(l: Life, l': Life)
    requires StaysTame(l, l')
    ensures TameQueue(l'.pending)
  {
  }

  lemma DispatchedTame(l: Life, beh: Behaviour)
    requires l.s.batch != [] && TameQueue(l.pending) && forall t :: Tame(beh(t))
    ensures StaysTame(l, Dispatched(l, beh))
  {
    hide Tame, Collected, ResumeAll, Take;
    if l.s.batch[0].fd == l.s.wake {
      CollectedTame(l.(s := Step(Take(l.s), ConsumeFd(l.s.wake, WAKEUP))));
    } else {
      ResumeAllTame(l.(s := Take(l.s)), beh);
    }
  }

  lemma {:induction false} DispatchAllTame(l: Life, beh: Behaviour)
    requires TameQueue(l.pending) && forall t :: Tame(beh(t))
    ensures StaysTame(l, DispatchAll(l, beh))
    decreases |l.s.batch|
  {
    if l.s.batch != [] {
      var l1 := Dispatched(l, beh);
      DispatchedTame(l, beh);
      TameNow(l, l1);
      hide Tame, StaysTame, Dispatched;
      DispatchAllTame(l1, beh);
      TameTwice(l, l1, DispatchAll(l1, beh));
    }
  }

  lemma PassTame(l: Life, b: Blocking, beh: Behaviour)
    requires l.s.batch == [] && l.s.taken == [] && TameQueue(l.pending) && Tame(b.meanwhile) && forall t :: Tame(beh(t))
    ensures StaysTame(l, Pass(l, b, beh).l)
  {
    var h := Head(l);
    CollectedTame(l);
    hide Tame, Collected;
    if h.thrown.None? {
      var w := Perform(h.l, b.meanwhile);
      PerformTame(h.l, b.meanwhile);
      TameTwice(l, h.l, w);
      hide Perform;
      if !b.interrupted {
        DispatchAllTame(Waited(w), beh);
        hide DispatchAll;
        TameTwice(l, w, Turn(w, beh));
      }
    }
  }

  /** A loop stops only if somebody calls `stop`: if neither the coroutines, nor the callbacks pending or ever posted, nor
      another thread does, the flag stays unset, and unless something throws every wait is made. */
  lemma {:induction false} NobodyStops(l: Life, env: seq<Blocking>, beh: Behaviour)
    requires Sound(l) && l.s.batch == [] && l.s.taken == [] && !l.stopped
    requires TameQueue(l.pending) && (forall t :: Tame(beh(t))) && forall b :: b in env ==> Tame(b.meanwhile)
    ensures var r := Passes(l, env, beh);
            !r.l.stopped && (r.thrown.None? ==> r.l.waits == l.waits + |env|)
    decreases |env|
  {
    if env != [] {
      var p := Pass(l, env[0], beh);
      PassTame(l, env[0], beh);
      PassServes(l, env[0], beh);
      PassExplained(l, env[0], beh);
      TameIsUnstopped(l, p.l, if p.thrown.None? then [env[0]] else [], beh);
      hide Sound, Pass, Tame, Explained;
      if p.thrown.None? {
        NobodyStops(p.l, env[1..], beh);
      }
    }
  }

  lemma TameIsUnstopped(l: Life, l': Life, bs: seq<Blocking>, beh: Behaviour)
    requires StaysTame(l, l') && Explained(l, l', bs, beh) && !l.stopped
    requires (forall t :: Tame(beh(t))) && forall b :: b in bs ==> Tame(b.meanwhile)
    ensures !l'.stopped
  {
    forall t ensures StopLoop !in beh(t) { PostsTame(beh(t)); }
    forall b | b in bs ensures StopLoop !in b.meanwhile { PostsTame(b.meanwhile); }
    forall c | c in l'.ran[|l.ran|..] ensures StopLoop !in c.does { PostsTame(c.does); }
    hide Tame;
  }
}
