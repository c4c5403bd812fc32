/** Runs of the fine-grained pool: they are runs of the atomic pool with invisible moves, some
    step is possible while work remains, and without new reads every run is bounded. */
module PoolProgress {
  import opened Text
  import opened Framing
  import opened Counting
  import A = ActorPool
  import L = PoolLocks
  import R = PoolRefinement

  ghost predicate Next(s: L.State, s': L.State) {
    exists st :: L.Enabled(s, st) && s' == L.Apply(s, st)
  }

  ghost predicate IsRun(run: seq<L.State>) {
    && run != [] && L.Init(run[0])
    && forall i :: 0 <= i < |run| - 1 ==> Next(run[i], run[i + 1])
  }

  ghost predicate Good(s: L.State) {
    L.LockInv(s) && A.Inv(R.Abs(s))
  }

  lemma NextRefines(s: L.State, s': L.State)
    requires Good(s) && Next(s, s')
    ensures Good(s') && (R.Abs(s') == R.Abs(s) || A.Next(R.Abs(s), R.Abs(s')))
  {
    var st :| L.Enabled(s, st) && s' == L.Apply(s, st);
    R.StepRefines(s, st);
  }

  lemma ExtendRun(trace: seq<A.State>, s: A.State)
    requires A.IsRun(trace) && A.Next(trace[|trace| - 1], s)
    ensures A.IsRun(trace + [s])
  {
    var longer := trace + [s];
    forall k | 0 <= k < |longer| - 1 ensures A.Next(longer[k], longer[k + 1]) {
      if k < |trace| - 1 { assert A.Next(trace[k], trace[k + 1]); }
    }
  }

  lemma StartRefines(s: L.State)
    requires L.Init(s)
    ensures Good(s) && A.IsRun([R.Abs(s)])
  {
    L.InitLocks(s);
    R.InitRefines(s);
    A.InitInv(R.Abs(s));
  }

  lemma TraceRefines(trace: seq<A.State>, s: L.State, s': L.State) returns (trace': seq<A.State>)
    requires A.IsRun(trace) && trace[|trace| - 1] == R.Abs(s) && Good(s) && Next(s, s')
    ensures Good(s') && A.IsRun(trace') && trace'[|trace'| - 1] == R.Abs(s')
  {
    hide Good, Next, R.Abs;
    NextRefines(s, s');
    trace' := trace;
    if R.Abs(s') != R.Abs(s) {
      ExtendRun(trace, R.Abs(s'));
      trace' := trace + [R.Abs(s')];
    }
  }

  /** The history seen through the abstraction is a run of the atomic pool. */
  lemma {:induction false} RunRefines(run: seq<L.State>, i: nat) returns (trace: seq<A.State>)
    requires IsRun(run) && i < |run|
    ensures Good(run[i])
    ensures A.IsRun(trace) && trace[|trace| - 1] == R.Abs(run[i])
  {
    if i == 0 {
      StartRefines(run[0]);
      trace := [R.Abs(run[0])];
    } else {
      hide Good, Next, A.IsRun, R.Abs, L.Init;
      trace := RunRefines(run, i - 1);
      assert Next(run[i - 1], run[(i - 1) + 1]);
      trace := TraceRefines(trace, run[i - 1], run[i]);
    }
  }

  /** The get-null-then-put of pendingRunnablesOf never replaces a queue: when a thread is
      about to put, its actor still has none. */
  lemma PutNeverReplaces(run: seq<L.State>, i: nat, t: nat)
    requires IsRun(run) && i < |run| && t < |run[i].pcs| && L.LooksUp(run[i].pcs[t]) && L.LookOf(run[i].pcs[t]).Put?
    ensures run[i].pcs[t].actor !in run[i].acts
  {
    var _ := RunRefines(run, i);
    assert L.Sound(run[i], run[i].pcs[t]);
  }

  // ---------- no deadlock ----------

  /** Some thread is inside a task, a read or the pool's code, or a job waits. */
  ghost predicate HasWork(s: L.State) {
    s.executor != [] || exists t :: 0 <= t < |s.pcs| && s.pcs[t] != L.Quiet(A.Idle)
  }

  /** Whoever holds the read or the write lock can move. */
  lemma LockHolderMoves(s: L.State, t: nat)
    requires L.LockInv(s) && t < |s.pcs| && (L.HoldsRead(s.pcs[t]) || L.HoldsWrite(s.pcs[t]))
    ensures L.MayMove(s, t)
  {
  }

  /** A thread inside a monitor can move, or the thread it waits for can. */
  lemma InsideMonitorMoves(s: L.State, t: nat) returns (u: nat)
    requires L.LockInv(s) && t < |s.pcs| && L.InMonitor(s.pcs[t])
    ensures u < |s.pcs| && L.MayMove(s, u)
  {
    u := t;
    var pc := s.pcs[t];
    assert L.Sound(s, pc);
    if !L.MayMove(s, t) {
      if s.writer.Some? {
        u := s.writer.value;
        assert s.writer == Some(u);
        LockHolderMoves(s, u);
      } else {
        assert L.LooksUp(pc) && L.LookOf(pc).WriteLock?;
        u :| u in s.readers;
        LockHolderMoves(s, u);
      }
    }
  }

  lemma BusyThreadMoves(s: L.State, t: nat) returns (st: L.Step)
    requires Good(s) && t < |s.pcs| && s.pcs[t] != L.Quiet(A.Idle)
    ensures L.Enabled(s, st) && !st.Lease?
  {
    var pc := s.pcs[t];
    if pc.Quiet? {
      assert R.Abs(s).threads[t] == pc.phase;
      if pc.phase.Leased? {
        st := L.ReadFails(t);
      } else {
        assert A.Intact(s.env.mem, pc.phase.task);
        st := if pc.phase.pos < |s.env.mem[pc.phase.task.buf]| then L.RunByte(t) else L.Release(t);
      }
    } else if L.WantsMonitor(pc) && pc.actor in s.monitor {
      var u := InsideMonitorMoves(s, s.monitor[pc.actor]);
      st := L.Move(u);
    } else if L.WantsMonitor(pc) {
      st := L.Move(t);
    } else {
      var u := InsideMonitorMoves(s, t);
      st := L.Move(u);
    }
  }

  /** While work remains and the executor has a thread, some step other than a new read is
      possible: monitors are taken before the read/write lock, so nothing deadlocks. */
  lemma NeverStuck(run: seq<L.State>, i: nat) returns (st: L.Step)
    requires IsRun(run) && i < |run| && run[i].workers > 0 && HasWork(run[i])
    ensures L.Enabled(run[i], st) && !st.Lease?
  {
    var s := run[i];
    var _ := RunRefines(run, i);
    if t: nat :| t < |s.pcs| && s.pcs[t] != L.Quiet(A.Idle) {
      st := BusyThreadMoves(s, t);
    } else {
      assert s.executor[0] in s.executor;
      st := L.Take(0);
    }
  }

  // ---------- draining ----------

  function JobWork(j: A.Job, r: nat): nat { 13 + |j.task.chunk| }

  function TaskWork(t: A.Task, r: nat): nat { 13 + |t.chunk| }

  function QueueWork(q: seq<A.Task>, r: nat): nat { Count(q, TaskWork, r) }

  function LookWork(l: L.Look): nat {
    match l
    case ReadLock => 10
    case Get => 9
    case ReadUnlock(_) => 8
    case WriteLock => 7
    case Put => 6
    case WriteUnlock(_) => 5
  }

  /** An upper bound on the steps a thread causes from where it is. */
  function ThreadWork(pc: L.PC, r: nat): nat {
    match pc
    case Quiet(Idle) => 0
    case Quiet(Leased(_, _)) => 26 + A.BUFFER_SIZE
    case Quiet(Running(_, task, pos)) => 12 + (if pos <= |task.chunk| then |task.chunk| - pos else 0)
    case Quiet(_) => 0
    case InSubmit(_, task, s) =>
      13 + |task.chunk| + (match s
        case SEnter => 12
        case SCheck => 11
        case SLook(l) => LookWork(l)
        case SPlay => 3
        case SExecute => 2
        case SEnqueue(_) => 2)
    case InComplete(_, c) =>
      (match c
        case CEnter => 11
        case CLook(l) => LookWork(l)
        case CTest(_) => 4
        case CPoll(_) => 3
        case CRemove => 2
        case CExecute(task) => 15 + |task.chunk|)
    case Leave(_) => 1
  }

  /** The work left: a bound on the steps possible before the next read begins. */
  function Work(s: L.State): nat {
    Count(s.executor, JobWork, 0) + Count(s.queues, QueueWork, 0) + Count(s.pcs, ThreadWork, 0)
  }

  lemma LookingWork(pc: L.PC, l: L.Look, q: nat)
    requires L.LooksUp(pc)
    ensures ThreadWork(L.At(pc, l), 0) + LookWork(L.LookOf(pc)) == ThreadWork(pc, 0) + LookWork(l)
    ensures ThreadWork(L.Found(pc, q), 0) + LookWork(L.LookOf(pc)) <= ThreadWork(pc, 0) + 4
  {
  }

  lemma LookMoveWork(s: L.State, t: nat)
    requires t < |s.pcs| && L.LooksUp(s.pcs[t])
    ensures Work(L.LookMove(s, t)) < Work(s)
  {
    var pc := s.pcs[t];
    var s' := L.LookMove(s, t);
    CountUpdate(s.pcs, t, s'.pcs[t], ThreadWork, 0);
    match L.LookOf(pc) {
      case ReadLock => LookingWork(pc, L.Get, 0);
      case Get => LookingWork(pc, L.LookOf(s'.pcs[t]), 0);
      case ReadUnlock(found) => LookingWork(pc, L.WriteLock, if found.Some? then found.value else 0);
      case WriteLock => LookingWork(pc, L.Put, 0);
      case Put =>
        LookingWork(pc, L.WriteUnlock(|s.queues|), 0);
        CountSnoc(s.queues, [], QueueWork, 0);
      case WriteUnlock(q) => LookingWork(pc, L.Get, q);
    }
  }

  lemma ExecuteWork(s: L.State, a: nat, task: A.Task, r: nat)
    ensures Count(s.executor + [A.Job(a, task)], JobWork, r) == Count(s.executor, JobWork, r) + 13 + |task.chunk|
  {
    CountSnoc(s.executor, A.Job(a, task), JobWork, r);
  }

  lemma EnqueueWork(s: L.State, q: nat, task: A.Task, r: nat)
    requires q < |s.queues|
    ensures Count(s.queues[q := s.queues[q] + [task]], QueueWork, r) == Count(s.queues, QueueWork, r) + 13 + |task.chunk|
  {
    CountUpdate(s.queues, q, s.queues[q] + [task], QueueWork, r);
    CountSnoc(s.queues[q], task, TaskWork, r);
  }

  lemma SubmitMoveWork(s: L.State, t: nat)
    requires t < |s.pcs| && L.MayMove(s, t) && s.pcs[t].InSubmit? && !s.pcs[t].s.SLook?
    ensures Work(L.SubmitMove(s, t)) < Work(s)
  {
    hide Count;
    var pc := s.pcs[t];
    CountUpdate(s.pcs, t, L.SubmitMove(s, t).pcs[t], ThreadWork, 0);
    match pc.s {
      case SExecute => ExecuteWork(s, pc.actor, pc.task, 0);
      case SEnqueue(q) => EnqueueWork(s, q, pc.task, 0);
      case _ =>
    }
  }

  lemma CompleteMoveWork(s: L.State, t: nat)
    requires t < |s.pcs| && L.MayMove(s, t) && s.pcs[t].InComplete? && !s.pcs[t].c.CLook?
    ensures Work(L.CompleteMove(s, t)) < Work(s)
  {
    hide Count;
    var pc := s.pcs[t];
    CountUpdate(s.pcs, t, L.CompleteMove(s, t).pcs[t], ThreadWork, 0);
    if pc.c.CPoll? {
      CountUpdate(s.queues, pc.c.q, s.queues[pc.c.q][1..], QueueWork, 0);
      CountUncons(s.queues[pc.c.q], TaskWork, 0);
    } else if pc.c.CExecute? {
      CountSnoc(s.executor, A.Job(pc.actor, pc.c.task), JobWork, 0);
    }
  }

  lemma TakeWork(s: L.State, t: nat)
    requires L.Enabled(s, L.Take(t))
    ensures Work(L.Apply(s, L.Take(t))) < Work(s)
  {
    CountUpdate(s.pcs, t, L.Apply(s, L.Take(t)).pcs[t], ThreadWork, 0);
    CountUncons(s.executor, JobWork, 0);
  }

  lemma RunWork(s: L.State, st: L.Step)
    requires L.Enabled(s, st) && (st.RunByte? || st.Release?)
    requires A.Intact(s.env.mem, s.pcs[st.t].phase.task)
    ensures Work(L.Apply(s, st)) < Work(s)
  {
    CountUpdate(s.pcs, st.t, L.Apply(s, st).pcs[st.t], ThreadWork, 0);
  }

  lemma ReadWork(s: L.State, st: L.Step)
    requires L.Enabled(s, st) && (st.Read? || st.ReadFails?)
    ensures Work(L.Apply(s, st)) < Work(s)
  {
    CountUpdate(s.pcs, st.t, L.Apply(s, st).pcs[st.t], ThreadWork, 0);
  }

  lemma MoveWork(s: L.State, t: nat)
    requires t < |s.pcs| && L.MayMove(s, t)
    ensures Work(L.MoveOf(s, t)) < Work(s)
  {
    if L.LooksUp(s.pcs[t]) {
      LookMoveWork(s, t);
    } else if s.pcs[t].InSubmit? {
      SubmitMoveWork(s, t);
    } else if s.pcs[t].InComplete? {
      CompleteMoveWork(s, t);
    } else {
      CountUpdate(s.pcs, t, L.Quiet(A.Idle), ThreadWork, 0);
    }
  }

  /** Every step except beginning a read uses up work. */
  lemma StepWork(s: L.State, st: L.Step)
    requires Good(s) && L.Enabled(s, st) && !st.Lease?
    ensures Work(L.Apply(s, st)) < Work(s)
  {
    match st {
      case Move(t) => MoveWork(s, t);
      case Take(t) => TakeWork(s, t);
      case Read(_, _) => ReadWork(s, st);
      case ReadFails(_) => ReadWork(s, st);
      case RunByte(t) =>
        assert R.Abs(s).threads[t] == s.pcs[t].phase;
        RunWork(s, st);
      case Release(t) =>
        assert R.Abs(s).threads[t] == s.pcs[t].phase;
        RunWork(s, st);
      case Lease(_, _) =>
    }
  }

  ghost predicate DrainStep(s: L.State, s': L.State) {
    exists st :: L.Enabled(s, st) && s' == L.Apply(s, st) && !st.Lease?
  }

  lemma DrainStepWork(s: L.State, s': L.State)
    requires Good(s) && DrainStep(s, s')
    ensures Work(s') < Work(s)
  {
    var st :| L.Enabled(s, st) && s' == L.Apply(s, st) && !st.Lease?;
    StepWork(s, st);
  }

  ghost predicate NoNewReads(run: seq<L.State>, i: nat, j: nat) {
    i <= j < |run| && forall k :: i <= k < j ==> DrainStep(run[k], run[k + 1])
  }

  /** Without new reads a run has at most `Work` further steps, however it is scheduled. */
  lemma {:induction false} BoundedDrain(run: seq<L.State>, i: nat, j: nat)
    requires IsRun(run) && NoNewReads(run, i, j)
    ensures j - i + Work(run[j]) <= Work(run[i])
    decreases j - i
  {
    if i < j {
      var _ := RunRefines(run, i);
      DrainStepWork(run[i], run[i + 1]);
      BoundedDrain(run, i + 1, j);
    }
  }

  /** Where such a run ends, everything submitted has been done: nobody plays, no queue object
      holds a task, all buffers are free, and each connection's messages are the pieces of its
      bytes, if and only if each is deliverable. */
  lemma DrainedIsDone(run: seq<L.State>, i: nat, a: nat)
    requires IsRun(run) && i < |run| && a < run[i].n && run[i].workers > 0
    requires forall st :: L.Enabled(run[i], st) ==> st.Lease?
    ensures var s := run[i];
            && a < |s.env.submitted| && a < |s.env.dec| && a < |s.env.begun| && a < |s.env.received|
            && s.executor == [] && s.playing == {} && (a in s.acts ==> s.acts[a] < |s.queues| && s.queues[s.acts[a]] == [])
            && s.env.begun[a] == s.env.submitted[a]
            && (forall b: nat :: Count(s.env.free, A.FreeBuf, b) == if b < |s.env.mem| then 1 else 0)
            && (s.env.dec[a].passed == Pieces(Flat(s.env.submitted[a])) <==> AllDeliverable(Pieces(Flat(s.env.submitted[a]))))
            && (|s.pcs| == s.workers + 1 ==> s.env.received[a] == Flat(s.env.submitted[a]))
  {
    var s := run[i];
    var trace := RunRefines(run, i);
    if HasWork(s) {
      var st := NeverStuck(run, i);
    }
    assert A.Quiescent(R.Abs(s));
    A.QuiescentIsDone(trace, |trace| - 1, a);
    IdleMeansFree(s, a);
  }

  lemma IdleMeansFree(s: L.State, a: nat)
    requires L.LockInv(s) && a < s.n && forall t :: 0 <= t < |s.pcs| ==> s.pcs[t] == L.Quiet(A.Idle)
    requires R.Playing(s) == {} && R.Pending(s)[a] == []
    ensures s.playing == {} && (a in s.acts ==> s.acts[a] < |s.queues| && s.queues[s.acts[a]] == [])
  {
    forall b ensures b !in s.monitor {
      if b in s.monitor { assert false; }
    }
    forall b | b in s.playing ensures b in R.Playing(s) {
    }
  }
}
