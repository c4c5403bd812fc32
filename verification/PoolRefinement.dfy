/** The lock-granularity pool refines the atomic one: each `submit` and `complete` takes effect
    at one move inside its monitor, and every other move is invisible. */
module PoolRefinement {
  import A = ActorPool
  import L = PoolLocks

  function PhaseOf(pc: L.PC): A.Phase {
    match pc
    case Quiet(p) => p
    case InSubmit(a, task, _) => A.Ready(a, task)
    case InComplete(a, _) => A.Completing(a)
    case Leave(_) => A.Idle
  }

  function QueueOf(s: L.State, a: nat): seq<A.Task> {
    if a in s.acts && s.acts[a] < |s.queues| then s.queues[s.acts[a]] else []
  }

  function Holder(s: L.State, a: nat): L.PC {
    if a in s.monitor && s.monitor[a] < |s.pcs| then s.pcs[s.monitor[a]] else L.Leave(a)
  }

  /** The task `complete` has polled but not yet handed to the executor. */
  function InHand(s: L.State, a: nat): seq<A.Task> {
    var pc := Holder(s, a);
    if pc.InComplete? && pc.c.CExecute? then [pc.c.task] else []
  }

  /** `submit` has entered the actor in playingNow but not yet executed its task. */
  predicate NotYetExecuted(s: L.State, a: nat) {
    var pc := Holder(s, a);
    pc.InSubmit? && pc.s.SExecute?
  }

  ghost function Playing(s: L.State): set<nat> {
    set a | a in s.playing && !NotYetExecuted(s, a)
  }

  function Pending(s: L.State): (p: seq<seq<A.Task>>)
    ensures |p| == s.n && forall a :: 0 <= a < s.n ==> p[a] == InHand(s, a) + QueueOf(s, a)
  {
    seq(s.n, a requires 0 <= a < s.n => InHand(s, a) + QueueOf(s, a))
  }

  function Threads(s: L.State): (r: seq<A.Phase>)
    ensures |r| == |s.pcs| && forall t :: 0 <= t < |s.pcs| ==> r[t] == PhaseOf(s.pcs[t])
  {
    seq(|s.pcs|, t requires 0 <= t < |s.pcs| => PhaseOf(s.pcs[t]))
  }

  ghost function Abs(s: L.State): A.State {
    A.State(A.Pool(Pending(s), Playing(s), s.executor), s.env, Threads(s), s.workers)
  }

  lemma InitRefines(s: L.State)
    requires L.Init(s)
    ensures A.Init(Abs(s))
  {
    assert Pending(s) == seq(s.n, _ => []);
    assert Threads(s) == seq(|s.pcs|, _ => A.Idle);
  }

  /** Nothing changes for actor `b` when its holder, its queue and its playing flag do not. */
  ghost predicate SameActor(s: L.State, s': L.State, b: nat) {
    && InHand(s', b) + QueueOf(s', b) == InHand(s, b) + QueueOf(s, b)
    && (b in Playing(s') <==> b in Playing(s))
  }

  lemma Unchanged(s: L.State, s': L.State)
    requires s'.n == s.n && |s'.pcs| == |s.pcs| && forall b: nat :: SameActor(s, s', b)
    ensures Pending(s') == Pending(s) && Playing(s') == Playing(s)
  {
    assert forall b :: b in Playing(s') <==> b in Playing(s) by {
      forall b | b in Playing(s') || b in Playing(s) ensures b in Playing(s') && b in Playing(s) {
        assert SameActor(s, s', b);
      }
    }
    forall b | 0 <= b < s.n ensures Pending(s')[b] == Pending(s)[b] {
      assert SameActor(s, s', b);
    }
  }

  lemma SameHolder(s: L.State, s': L.State, b: nat)
    requires Holder(s', b) == Holder(s, b) && QueueOf(s', b) == QueueOf(s, b) && (b in s'.playing <==> b in s.playing)
    ensures SameActor(s, s', b)
  {
    hide Holder, QueueOf;
  }

  lemma OtherHolder(s: L.State, t: nat, b: nat)
    requires L.LockInv(s) && t < |s.pcs| && L.MayMove(s, t) && b != s.pcs[t].actor
    ensures Holder(L.MoveOf(s, t), b) == Holder(s, b)
  {
    hide L.Queues;
    if b in s.monitor {
      assert L.InMonitor(s.pcs[s.monitor[b]]) && s.pcs[s.monitor[b]].actor == b;
      assert s.monitor[b] != t;
    }
  }

  lemma OtherQueue(s: L.State, t: nat, b: nat)
    requires L.LockInv(s) && t < |s.pcs| && L.MayMove(s, t) && b != s.pcs[t].actor
    ensures QueueOf(L.MoveOf(s, t), b) == QueueOf(s, b) && (b in L.MoveOf(s, t).playing <==> b in s.playing)
  {
    hide L.Locks;
    assert L.Sound(s, s.pcs[t]);
  }

  /** Only the actor whose code the thread runs can be affected by a move. */
  lemma OtherActors(s: L.State, t: nat, b: nat)
    requires L.LockInv(s) && t < |s.pcs| && L.MayMove(s, t) && b != s.pcs[t].actor
    ensures SameActor(s, L.MoveOf(s, t), b)
  {
    hide SameActor, L.LockInv, Holder, QueueOf;
    OtherHolder(s, t, b);
    OtherQueue(s, t, b);
    SameHolder(s, L.MoveOf(s, t), b);
  }

  /** The moves at which `submit` and `complete` take effect. */
  predicate Commits(pc: L.PC) {
    || (pc.InSubmit? && (pc.s.SExecute? || pc.s.SEnqueue?))
    || (pc.InComplete? && (pc.c.CRemove? || pc.c.CExecute?))
  }

  lemma HolderIs(s: L.State, t: nat)
    requires L.LockInv(s) && t < |s.pcs| && L.InMonitor(s.pcs[t])
    ensures Holder(s, s.pcs[t].actor) == s.pcs[t]
  {
  }

  lemma OwnActorLook(s: L.State, t: nat)
    requires L.LockInv(s) && t < |s.pcs| && L.MayMove(s, t) && L.LooksUp(s.pcs[t])
    ensures SameActor(s, L.MoveOf(s, t), s.pcs[t].actor)
  {
    var s' := L.MoveOf(s, t);
    var a := s.pcs[t].actor;
    HolderIs(s, t);
    assert L.Sound(s, s.pcs[t]);
    assert Holder(s', a) == s'.pcs[t];
    assert QueueOf(s', a) == QueueOf(s, a);
  }

  lemma OwnActorSilent(s: L.State, t: nat)
    requires L.LockInv(s) && t < |s.pcs| && L.MayMove(s, t) && !Commits(s.pcs[t]) && !L.LooksUp(s.pcs[t])
    ensures SameActor(s, L.MoveOf(s, t), s.pcs[t].actor)
  {
    var s' := L.MoveOf(s, t);
    var pc := s.pcs[t];
    var a := pc.actor;
    assert L.Sound(s, pc);
    if L.InMonitor(pc) { HolderIs(s, t); }
    if pc.Leave? {
      assert a !in s'.monitor;
    } else {
      assert Holder(s', a) == s'.pcs[t];
    }
  }

  lemma SilentMove(s: L.State, t: nat)
    requires L.LockInv(s) && t < |s.pcs| && L.MayMove(s, t) && !Commits(s.pcs[t])
    ensures Abs(L.MoveOf(s, t)) == Abs(s)
  {
    var s' := L.MoveOf(s, t);
    forall b: nat ensures SameActor(s, s', b) {
      if b != s.pcs[t].actor {
        OtherActors(s, t, b);
      } else if L.LooksUp(s.pcs[t]) {
        OwnActorLook(s, t);
      } else {
        OwnActorSilent(s, t);
      }
    }
    Unchanged(s, s');
    assert Threads(s') == Threads(s);
  }

  /** After a commit the abstract pool is the old one with actor `a` updated. */
  lemma CommitPool(s: L.State, t: nat, queue: seq<A.Task>, plays: bool)
    requires L.LockInv(s) && t < |s.pcs| && L.MayMove(s, t) && Commits(s.pcs[t])
    requires var s' := L.MoveOf(s, t); var a := s.pcs[t].actor;
             InHand(s', a) + QueueOf(s', a) == queue && (a in Playing(s') <==> plays)
    ensures var a := s.pcs[t].actor;
            && a < s.n
            && Pending(L.MoveOf(s, t)) == Pending(s)[a := queue]
            && Playing(L.MoveOf(s, t)) == if plays then Playing(s) + {a} else Playing(s) - {a}
  {
    var s' := L.MoveOf(s, t);
    var a := s.pcs[t].actor;
    forall b: nat | b != a ensures SameActor(s, s', b) {
      OtherActors(s, t, b);
    }
    forall b | 0 <= b < s.n && b != a ensures Pending(s')[b] == Pending(s)[b] {
      assert SameActor(s, s', b);
    }
    forall b: nat | b != a ensures b in Playing(s') <==> b in Playing(s) {
      assert SameActor(s, s', b);
    }
  }

  /** The actor's queue and playing flag around the commit of a submit. */
  lemma SubmitOwn(s: L.State, t: nat)
    requires L.LockInv(s) && t < |s.pcs| && L.MayMove(s, t) && Commits(s.pcs[t]) && s.pcs[t].InSubmit?
    ensures var s', pc := L.MoveOf(s, t), s.pcs[t];
            && InHand(s, pc.actor) == [] && InHand(s', pc.actor) == []
            && QueueOf(s', pc.actor) == (if pc.s.SExecute? then QueueOf(s, pc.actor) else QueueOf(s, pc.actor) + [pc.task])
            && pc.actor in Playing(s') && (pc.actor in Playing(s) <==> pc.s.SEnqueue?)
  {
    hide L.Sizes;
    assert L.Sound(s, s.pcs[t]);
    HolderIs(s, t);
    assert Holder(L.MoveOf(s, t), s.pcs[t].actor) == L.Leave(s.pcs[t].actor);
  }

  lemma SubmitCommits(s: L.State, t: nat)
    requires L.LockInv(s) && t < |s.pcs| && L.MayMove(s, t) && Commits(s.pcs[t]) && s.pcs[t].InSubmit?
    ensures A.Enabled(Abs(s), A.Submit(t)) && Abs(L.MoveOf(s, t)) == A.Apply(Abs(s), A.Submit(t))
  {
    hide L.Locks, L.Queues, InHand, QueueOf, Playing;
    var pc := s.pcs[t];
    var queue := if pc.s.SExecute? then QueueOf(s, pc.actor) else QueueOf(s, pc.actor) + [pc.task];
    SubmitOwn(s, t);
    assert [] + queue == queue && [] + QueueOf(s, pc.actor) == QueueOf(s, pc.actor);
    CommitPool(s, t, queue, true);
    assert Threads(L.MoveOf(s, t)) == Threads(s)[t := A.Idle];
  }

  lemma CompleteCommits(s: L.State, t: nat)
    requires L.LockInv(s) && t < |s.pcs| && L.MayMove(s, t) && Commits(s.pcs[t]) && s.pcs[t].InComplete?
    requires s.pcs[t].actor in s.playing
    ensures A.Enabled(Abs(s), A.Complete(t)) && Abs(L.MoveOf(s, t)) == A.Apply(Abs(s), A.Complete(t))
  {
    var s' := L.MoveOf(s, t);
    var pc := s.pcs[t];
    var a := pc.actor;
    assert L.Sound(s, pc);
    HolderIs(s, t);
    assert Holder(s', a) == L.Leave(a);
    CommitPool(s, t, QueueOf(s, a), pc.c.CExecute?);
    assert Threads(s') == Threads(s)[t := A.Idle];
    if pc.c.CExecute? {
      assert Pending(s)[a] == [pc.c.task] + QueueOf(s, a);
      assert Playing(s) + {a} == Playing(s);
    } else {
      assert Pending(s)[a] == [];
    }
  }

  /** The step of the atomic pool that an outer step is. */
  function Visible(s: L.State, st: L.Step): A.Step
    requires !st.Move? || (st.t < |s.pcs| && !s.pcs[st.t].Quiet?)
  {
    match st
    case Lease(t, a) => A.Lease(t, a)
    case Read(t, data) => A.Read(t, data)
    case ReadFails(t) => A.ReadFails(t)
    case Take(t) => A.Take(t)
    case RunByte(t) => A.RunByte(t)
    case Release(t) => A.Release(t)
    case Move(t) => if s.pcs[t].InSubmit? then A.Submit(t) else A.Complete(t)
  }

  lemma OuterActor(s: L.State, st: L.Step, b: nat)
    requires L.LockInv(s) && L.Enabled(s, st) && !st.Move?
    ensures SameActor(s, L.Apply(s, st), b)
  {
    hide L.Sizes, L.Queues, SameActor;
    if b in s.monitor { assert L.InMonitor(s.pcs[s.monitor[b]]); }
    SameHolder(s, L.Apply(s, st), b);
  }

  lemma OuterStep(s: L.State, st: L.Step)
    requires L.LockInv(s) && L.Enabled(s, st) && !st.Move?
    ensures A.Enabled(Abs(s), Visible(s, st)) && Abs(L.Apply(s, st)) == A.Apply(Abs(s), Visible(s, st))
  {
    hide L.Locks, L.Queues, SameActor, InHand, QueueOf, Playing;
    var s' := L.Apply(s, st);
    forall b: nat ensures SameActor(s, s', b) {
      OuterActor(s, st, b);
    }
    Unchanged(s, s');
    assert Threads(s') == Threads(s)[st.t := PhaseOf(s'.pcs[st.t])];
    assert Threads(s)[st.t] == PhaseOf(s.pcs[st.t]);
  }
  /** Every step of the fine-grained pool is a step of the atomic pool or invisible. */
  lemma StepRefines(s: L.State, st: L.Step)
    requires L.LockInv(s) && A.Inv(Abs(s)) && L.Enabled(s, st)
    ensures L.LockInv(L.Apply(s, st)) && A.Inv(Abs(L.Apply(s, st)))
    ensures if st.Move? && !Commits(s.pcs[st.t]) then Abs(L.Apply(s, st)) == Abs(s)
            else A.Enabled(Abs(s), Visible(s, st)) && Abs(L.Apply(s, st)) == A.Apply(Abs(s), Visible(s, st))
  {
    L.StepSizes(s, st);
    L.StepLocks(s, st);
    L.StepQueues(s, st);
    if !st.Move? {
      OuterStep(s, st);
      A.StepInv(Abs(s), Visible(s, st));
    } else if !Commits(s.pcs[st.t]) {
      SilentMove(s, st.t);
    } else if s.pcs[st.t].InSubmit? {
      SubmitCommits(s, st.t);
      A.StepInv(Abs(s), A.Submit(st.t));
    } else {
      assert Threads(s)[st.t] == PhaseOf(s.pcs[st.t]);
      A.HolderIsAlone(Abs(s), st.t);
      CompleteCommits(s, st.t);
      A.StepInv(Abs(s), A.Complete(st.t));
    }
  }
}
