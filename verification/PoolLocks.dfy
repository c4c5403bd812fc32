/** ActorThreadPool at lock granularity: each actor's monitor, the read/write lock around the
    `acts` map, and queue objects held by reference.  Every thread has a program counter, and
    any interleaving is allowed.  Refines `ActorPool`, never deadlocks and always drains. */
module PoolLocks {
  import opened Text
  import opened Framing
  import opened ActorPool

  /** Where a thread is inside pendingRunnablesOf. */
  datatype Look = ReadLock | Get | ReadUnlock(found: Option<nat>) | WriteLock | Put | WriteUnlock(made: nat)

  /** Where a thread is inside submit; `Enqueue` holds the queue reference it was given. */
  datatype Submitting = SEnter | SCheck | SPlay | SExecute | SLook(look: Look) | SEnqueue(q: nat)

  /** Where a thread is inside complete. */
  datatype Finishing = CEnter | CLook(look: Look) | CTest(q: nat) | CRemove | CPoll(q: nat) | CExecute(task: Task)

  datatype PC =
    | Quiet(phase: Phase)
    | InSubmit(actor: nat, task: Task, s: Submitting)
    | InComplete(actor: nat, c: Finishing)
    | Leave(actor: nat)

  /** `acts` maps an actor to a queue object, an index into `queues`. */
  datatype State = State(env: Env, n: nat, acts: map<nat, nat>, queues: seq<seq<Task>>, playing: set<nat>,
                         executor: seq<Job>, monitor: map<nat, nat>, readers: set<nat>, writer: Option<nat>,
                         pcs: seq<PC>, workers: nat)

  datatype Step =
    | Lease(t: nat, a: nat)
    | Read(t: nat, data: string)
    | ReadFails(t: nat)
    | Take(t: nat)
    | RunByte(t: nat)
    | Release(t: nat)
    | Move(t: nat)

  predicate LooksUp(pc: PC) {
    (pc.InSubmit? && pc.s.SLook?) || (pc.InComplete? && pc.c.CLook?)
  }

  function LookOf(pc: PC): Look
    requires LooksUp(pc)
  {
    if pc.InSubmit? then pc.s.look else pc.c.look
  }

  function At(pc: PC, l: Look): PC
    requires LooksUp(pc)
  {
    if pc.InSubmit? then pc.(s := SLook(l)) else pc.(c := CLook(l))
  }

  /** pendingRunnablesOf returned queue `q`. */
  function Found(pc: PC, q: nat): PC
    requires LooksUp(pc)
  {
    if pc.InSubmit? then pc.(s := SEnqueue(q)) else pc.(c := CTest(q))
  }

  predicate InMonitor(pc: PC) {
    (pc.InSubmit? && !pc.s.SEnter?) || (pc.InComplete? && !pc.c.CEnter?) || pc.Leave?
  }

  predicate HoldsRead(pc: PC) {
    LooksUp(pc) && (LookOf(pc).Get? || LookOf(pc).ReadUnlock?)
  }

  predicate HoldsWrite(pc: PC) {
    LooksUp(pc) && (LookOf(pc).Put? || LookOf(pc).WriteUnlock?)
  }

  predicate WantsMonitor(pc: PC) {
    (pc.InSubmit? && pc.s.SEnter?) || (pc.InComplete? && pc.c.CEnter?)
  }

  /** May thread `t`, inside the pool's code, make its next move?  Only lock operations wait. */
  predicate MayMove(s: State, t: nat)
    requires t < |s.pcs|
  {
    var pc := s.pcs[t];
    && !pc.Quiet?
    && (WantsMonitor(pc) ==> pc.actor !in s.monitor)
    && (LooksUp(pc) && LookOf(pc).ReadLock? ==> s.writer.None?)
    && (LooksUp(pc) && LookOf(pc).WriteLock? ==> s.writer.None? && s.readers == {})
    && (pc.InSubmit? && pc.s.SEnqueue? ==> pc.s.q < |s.queues|)
    && (pc.InComplete? && pc.c.CTest? ==> pc.c.q < |s.queues|)
    && (pc.InComplete? && pc.c.CPoll? ==> pc.c.q < |s.queues| && s.queues[pc.c.q] != [])
    && (pc.InSubmit? ==> pc.actor < |s.env.submitted|)
  }

  function Enqueued(e: Env, a: nat, task: Task): Env
    requires a < |e.submitted|
  {
    e.(submitted := e.submitted[a := e.submitted[a] + [task.chunk]])
  }

  function LookMove(s: State, t: nat): State
    requires t < |s.pcs| && LooksUp(s.pcs[t])
  {
    var pc := s.pcs[t];
    match LookOf(pc)
    case ReadLock => s.(readers := s.readers + {t}, pcs := s.pcs[t := At(pc, Get)])
    case Get =>
      var found := if pc.actor in s.acts then Some(s.acts[pc.actor]) else None;
      s.(pcs := s.pcs[t := At(pc, ReadUnlock(found))])
    case ReadUnlock(found) =>
      s.(readers := s.readers - {t},
         pcs := s.pcs[t := if found.Some? then Found(pc, found.value) else At(pc, WriteLock)])
    case WriteLock => s.(writer := Some(t), pcs := s.pcs[t := At(pc, Put)])
    case Put =>
      s.(acts := s.acts[pc.actor := |s.queues|], queues := s.queues + [[]],
         pcs := s.pcs[t := At(pc, WriteUnlock(|s.queues|))])
    case WriteUnlock(q) => s.(writer := None, pcs := s.pcs[t := Found(pc, q)])
  }

  function SubmitMove(s: State, t: nat): State
    requires t < |s.pcs| && MayMove(s, t) && s.pcs[t].InSubmit? && !s.pcs[t].s.SLook?
  {
    var pc := s.pcs[t];
    var a := pc.actor;
    match pc.s
    case SEnter => s.(monitor := s.monitor[a := t], pcs := s.pcs[t := pc.(s := SCheck)])
    case SCheck => s.(pcs := s.pcs[t := pc.(s := if a in s.playing then SLook(ReadLock) else SPlay)])
    case SPlay => s.(playing := s.playing + {a}, pcs := s.pcs[t := pc.(s := SExecute)])
    case SExecute =>
      s.(executor := s.executor + [Job(a, pc.task)], env := Enqueued(s.env, a, pc.task), pcs := s.pcs[t := Leave(a)])
    case SEnqueue(q) =>
      s.(queues := s.queues[q := s.queues[q] + [pc.task]], env := Enqueued(s.env, a, pc.task),
         pcs := s.pcs[t := Leave(a)])
    case SLook(_) => s
  }

  function CompleteMove(s: State, t: nat): State
    requires t < |s.pcs| && MayMove(s, t) && s.pcs[t].InComplete? && !s.pcs[t].c.CLook?
  {
    var pc := s.pcs[t];
    var a := pc.actor;
    match pc.c
    case CEnter => s.(monitor := s.monitor[a := t], pcs := s.pcs[t := pc.(c := CLook(ReadLock))])
    case CTest(q) => s.(pcs := s.pcs[t := pc.(c := if s.queues[q] == [] then CRemove else CPoll(q))])
    case CRemove => s.(playing := s.playing - {a}, pcs := s.pcs[t := Leave(a)])
    case CPoll(q) => s.(queues := s.queues[q := s.queues[q][1..]], pcs := s.pcs[t := pc.(c := CExecute(s.queues[q][0]))])
    case CExecute(task) => s.(executor := s.executor + [Job(a, task)], pcs := s.pcs[t := Leave(a)])
    case CLook(_) => s
  }

  function MoveOf(s: State, t: nat): State
    requires t < |s.pcs| && MayMove(s, t)
  {
    var pc := s.pcs[t];
    if LooksUp(pc) then LookMove(s, t)
    else if pc.InSubmit? then SubmitMove(s, t)
    else if pc.InComplete? then CompleteMove(s, t)
    else s.(monitor := s.monitor - {pc.actor}, pcs := s.pcs[t := Quiet(Idle)])
  }

  predicate Enabled(s: State, st: Step) {
    && st.t < |s.pcs|
    && var pc := s.pcs[st.t];
    match st
    case Lease(t, a) => t >= s.workers && pc == Quiet(Idle) && a < s.n
    case Read(t, data) =>
      pc.Quiet? && pc.phase.Leased? && pc.phase.buf < |s.env.mem| && pc.phase.actor < |s.env.received| && |data| <= BUFFER_SIZE
    case ReadFails(t) => pc.Quiet? && pc.phase.Leased?
    case Take(t) => t < s.workers && pc == Quiet(Idle) && s.executor != [] && s.executor[0].actor < |s.env.begun|
    case RunByte(t) =>
      && pc.Quiet? && pc.phase.Running? && pc.phase.task.buf < |s.env.mem|
      && pc.phase.pos < |s.env.mem[pc.phase.task.buf]| && pc.phase.actor < |s.env.dec|
    case Release(t) => pc.Quiet? && pc.phase.Running? && pc.phase.task.buf < |s.env.mem| && pc.phase.pos >= |s.env.mem[pc.phase.task.buf]|
    case Move(t) => MayMove(s, t)
  }

  function Apply(s: State, st: Step): State
    requires Enabled(s, st)
  {
    var pc := s.pcs[st.t];
    var e := s.env;
    match st
    case Lease(t, a) =>
      var (e', b) := LeaseEnv(e);
      s.(env := e', pcs := s.pcs[t := Quiet(Leased(a, b))])
    case Read(t, data) =>
      var a, b := pc.phase.actor, pc.phase.buf;
      s.(env := e.(mem := e.mem[b := data], received := e.received[a := e.received[a] + data]),
         pcs := s.pcs[t := InSubmit(a, Task(b, data), SEnter)])
    case ReadFails(t) =>
      s.(env := e.(free := e.free + [pc.phase.buf]), pcs := s.pcs[t := Quiet(Idle)])
    case Take(t) =>
      var j := s.executor[0];
      s.(executor := s.executor[1..],
         env := e.(begun := e.begun[j.actor := e.begun[j.actor] + [j.task.chunk]]),
         pcs := s.pcs[t := Quiet(Running(j.actor, j.task, 0))])
    case RunByte(t) =>
      var p := pc.phase;
      var fed := Feed(e.dec[p.actor], e.mem[p.task.buf][p.pos]);
      var pos := if fed.thrown then |e.mem[p.task.buf]| else p.pos + 1;
      s.(env := e.(dec := e.dec[p.actor := fed.decoder]), pcs := s.pcs[t := Quiet(p.(pos := pos))])
    case Release(t) =>
      s.(env := e.(free := e.free + [pc.phase.task.buf]), pcs := s.pcs[t := InComplete(pc.phase.actor, CEnter)])
    case Move(t) => MoveOf(s, t)
  }

  ghost predicate Init(s: State) {
    && s.env == Env([], [], seq(s.n, _ => Decoder("", [])), seq(s.n, _ => ""), seq(s.n, _ => []), seq(s.n, _ => []))
    && s.acts == map[] && s.queues == [] && s.playing == {} && s.executor == []
    && s.monitor == map[] && s.readers == {} && s.writer == None
    && s.pcs == seq(|s.pcs|, _ => Quiet(Idle)) && s.workers <= |s.pcs|
  }

  // ---------- lock invariants ----------

  ghost predicate Sizes(s: State) {
    && |s.env.dec| == s.n && |s.env.received| == s.n && |s.env.submitted| == s.n && |s.env.begun| == s.n
    && (forall j :: j in s.executor ==> j.actor < s.n)
    && (forall t :: 0 <= t < |s.pcs| ==>
          var pc := s.pcs[t];
          if pc.Quiet? then (pc.phase.Idle? || pc.phase.Leased? || pc.phase.Running?) && (!pc.phase.Idle? ==> pc.phase.actor < s.n)
          else pc.actor < s.n)
    && s.workers <= |s.pcs|
  }

  /** The locks are held by exactly the threads whose program counter says so. */
  ghost predicate Locks(s: State) {
    && (forall t :: 0 <= t < |s.pcs| && InMonitor(s.pcs[t]) ==> s.pcs[t].actor in s.monitor && s.monitor[s.pcs[t].actor] == t)
    && (forall a :: a in s.monitor ==> s.monitor[a] < |s.pcs| && InMonitor(s.pcs[s.monitor[a]]) && s.pcs[s.monitor[a]].actor == a)
    && (forall t: nat :: t in s.readers <==> t < |s.pcs| && HoldsRead(s.pcs[t]))
    && (forall t: nat :: s.writer == Some(t) <==> t < |s.pcs| && HoldsWrite(s.pcs[t]))
    && (s.writer.Some? ==> s.readers == {})
  }

  /** What a lookup has learnt stays true while its thread holds the actor's monitor: the
      write lock is taken only for an actor without a queue, so `put` never replaces one. */
  ghost predicate LookSound(s: State, a: nat, l: Look) {
    match l
    case ReadUnlock(found) => found == if a in s.acts then Some(s.acts[a]) else None
    case WriteLock => a !in s.acts
    case Put => a !in s.acts
    case WriteUnlock(q) => a in s.acts && s.acts[a] == q
    case _ => true
  }

  ghost predicate Sound(s: State, pc: PC) {
    match pc
    case InSubmit(a, _, SPlay) => a !in s.playing
    case InSubmit(a, _, SExecute) => a in s.playing
    case InSubmit(a, _, SLook(l)) => a in s.playing && LookSound(s, a, l)
    case InSubmit(a, _, SEnqueue(q)) => a in s.playing && a in s.acts && s.acts[a] == q
    case InComplete(a, CLook(l)) => LookSound(s, a, l)
    case InComplete(a, CTest(q)) => a in s.acts && s.acts[a] == q
    case InComplete(a, CRemove) => a in s.acts && s.acts[a] < |s.queues| && s.queues[s.acts[a]] == []
    case InComplete(a, CPoll(q)) => a in s.acts && s.acts[a] == q && q < |s.queues| && s.queues[q] != []
    case _ => true
  }

  ghost predicate Queues(s: State) {
    && (forall a :: a in s.acts ==> s.acts[a] < |s.queues|)
    && (forall a, b :: a in s.acts && b in s.acts && s.acts[a] == s.acts[b] ==> a == b)
    && (forall t :: 0 <= t < |s.pcs| ==> Sound(s, s.pcs[t]))
  }

  ghost predicate LockInv(s: State) {
    Sizes(s) && Locks(s) && Queues(s)
  }

  lemma InitLocks(s: State)
    requires Init(s)
    ensures LockInv(s)
  {
  }

  lemma StepSizes(s: State, st: Step)
    requires Sizes(s) && Enabled(s, st)
    ensures Sizes(Apply(s, st))
  {
    if st.Move? {
      MoveSizes(s, st.t);
    } else if st.Take? {
      assert s.executor[0] in s.executor;
    }
  }

  lemma MoveSizes(s: State, t: nat)
    requires Sizes(s) && t < |s.pcs| && MayMove(s, t)
    ensures Sizes(MoveOf(s, t))
  {
    var s' := MoveOf(s, t);
    assert s'.n == s.n && |s'.env.submitted| == |s.env.submitted|;
    assert forall u :: 0 <= u < |s.pcs| && u != t ==> s'.pcs[u] == s.pcs[u];
  }

  /** A step that changes no lock and no lock-related program counter. */
  lemma QuietLocks(s: State, s': State, t: nat)
    requires Locks(s) && t < |s.pcs| && |s'.pcs| == |s.pcs| && s'.pcs == s.pcs[t := s'.pcs[t]]
    requires s'.monitor == s.monitor && s'.readers == s.readers && s'.writer == s.writer
    requires InMonitor(s'.pcs[t]) == InMonitor(s.pcs[t])
    requires HoldsRead(s'.pcs[t]) == HoldsRead(s.pcs[t]) && HoldsWrite(s'.pcs[t]) == HoldsWrite(s.pcs[t])
    requires InMonitor(s.pcs[t]) ==> s'.pcs[t].actor == s.pcs[t].actor
    ensures Locks(s')
  {
  }

  lemma LookLocks(s: State, t: nat)
    requires Locks(s) && t < |s.pcs| && MayMove(s, t) && LooksUp(s.pcs[t])
    ensures Locks(LookMove(s, t))
  {
    var s' := LookMove(s, t);
    assert InMonitor(s'.pcs[t]) && s'.pcs[t].actor == s.pcs[t].actor && s'.monitor == s.monitor;
    forall u: nat ensures u in s'.readers <==> u < |s'.pcs| && HoldsRead(s'.pcs[u]) {
      assert u in s.readers <==> u < |s.pcs| && HoldsRead(s.pcs[u]);
    }
    forall u: nat ensures s'.writer == Some(u) <==> u < |s'.pcs| && HoldsWrite(s'.pcs[u]) {
      assert s.writer == Some(u) <==> u < |s.pcs| && HoldsWrite(s.pcs[u]);
    }
  }

  lemma EnterLocks(s: State, s': State, t: nat)
    requires Locks(s) && t < |s.pcs| && WantsMonitor(s.pcs[t]) && s.pcs[t].actor !in s.monitor
    requires |s'.pcs| == |s.pcs| && s'.pcs == s.pcs[t := s'.pcs[t]] && s'.readers == s.readers && s'.writer == s.writer
    requires s'.monitor == s.monitor[s.pcs[t].actor := t]
    requires InMonitor(s'.pcs[t]) && s'.pcs[t].actor == s.pcs[t].actor && !HoldsRead(s'.pcs[t]) && !HoldsWrite(s'.pcs[t])
    ensures Locks(s')
  {
  }

  lemma LeaveLocks(s: State, t: nat)
    requires Locks(s) && t < |s.pcs| && s.pcs[t].Leave?
    ensures Locks(s.(monitor := s.monitor - {s.pcs[t].actor}, pcs := s.pcs[t := Quiet(Idle)]))
  {
  }

  lemma StepLocks(s: State, st: Step)
    requires Locks(s) && Enabled(s, st)
    ensures Locks(Apply(s, st))
  {
    var pc := s.pcs[st.t];
    if st.Move? && LooksUp(pc) {
      LookLocks(s, st.t);
    } else if st.Move? && WantsMonitor(pc) {
      EnterLocks(s, Apply(s, st), st.t);
    } else if st.Move? && pc.Leave? {
      LeaveLocks(s, st.t);
    } else {
      QuietLocks(s, Apply(s, st), st.t);
    }
  }

  /** Two threads are not inside the monitor of the same actor. */
  lemma MonitorExcludes(s: State, t: nat, u: nat)
    requires Locks(s) && t < |s.pcs| && u < |s.pcs| && t != u && InMonitor(s.pcs[t]) && InMonitor(s.pcs[u])
    ensures s.pcs[t].actor != s.pcs[u].actor
  {
  }

  lemma LookQueues(s: State, t: nat)
    requires Locks(s) && Queues(s) && t < |s.pcs| && MayMove(s, t) && LooksUp(s.pcs[t])
    ensures Queues(LookMove(s, t))
  {
    var s' := LookMove(s, t);
    forall u | 0 <= u < |s.pcs| ensures Sound(s', s'.pcs[u]) {
      LookSounds(s, t, u);
    }
    assert Sound(s, s.pcs[t]);
    hide Locks, MayMove;
  }

  /** What a thread relies on survives another's look-up of its actor's queue. */
  lemma LookSounds(s: State, t: nat, u: nat)
    requires Locks(s) && Queues(s) && t < |s.pcs| && MayMove(s, t) && LooksUp(s.pcs[t]) && u < |s.pcs|
    ensures Sound(LookMove(s, t), LookMove(s, t).pcs[u])
  {
    hide Locks;
    assert Sound(s, s.pcs[t]) && Sound(s, s.pcs[u]);
    if u != t && InMonitor(s.pcs[u]) { MonitorExcludes(s, t, u); }
  }

  lemma SubmitQueues(s: State, t: nat)
    requires Locks(s) && Queues(s) && t < |s.pcs| && MayMove(s, t) && s.pcs[t].InSubmit? && !s.pcs[t].s.SLook?
    ensures Queues(SubmitMove(s, t))
  {
    hide Locks;
    var s' := SubmitMove(s, t);
    assert Sound(s, s.pcs[t]);
    forall u | 0 <= u < |s.pcs| ensures Sound(s', s'.pcs[u]) {
      assert Sound(s, s.pcs[u]);
      if u != t && InMonitor(s.pcs[u]) && InMonitor(s.pcs[t]) { MonitorExcludes(s, t, u); }
    }
  }

  lemma CompleteQueues(s: State, t: nat)
    requires Locks(s) && Queues(s) && t < |s.pcs| && MayMove(s, t) && s.pcs[t].InComplete? && !s.pcs[t].c.CLook?
    ensures Queues(CompleteMove(s, t))
  {
    hide Locks;
    var s' := CompleteMove(s, t);
    assert Sound(s, s.pcs[t]);
    forall u | 0 <= u < |s.pcs| ensures Sound(s', s'.pcs[u]) {
      assert Sound(s, s.pcs[u]);
      if u != t && InMonitor(s.pcs[u]) && InMonitor(s.pcs[t]) { MonitorExcludes(s, t, u); }
    }
  }

  lemma StepQueues(s: State, st: Step)
    requires Locks(s) && Queues(s) && Enabled(s, st)
    ensures Queues(Apply(s, st))
  {
    if st.Move? && LooksUp(s.pcs[st.t]) {
      LookQueues(s, st.t);
    } else if st.Move? && s.pcs[st.t].InSubmit? {
      SubmitQueues(s, st.t);
    } else if st.Move? && s.pcs[st.t].InComplete? {
      CompleteQueues(s, st.t);
    } else {
      var s' := Apply(s, st);
      forall u | 0 <= u < |s.pcs| ensures Sound(s', s'.pcs[u]) {
        assert Sound(s, s.pcs[u]);
      }
    }
  }
}
