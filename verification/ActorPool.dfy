/** The reactor's read path and the actor pool with `submit` and `complete` as atomic steps:
    selector threads lease a buffer, read a chunk into it and submit a read task; pool threads
    take jobs, feed the buffer to the connection's decoder byte by byte, release the buffer and
    complete.  Any number of connections (actors), submitting threads and pool threads. */
module ActorPool {
  import opened Framing
  import opened Counting

  /** A read task owns a pooled buffer; `chunk` records what the read put there. */
  datatype Task = Task(buf: nat, chunk: string)
  datatype Job = Job(actor: nat, task: Task)

  datatype Pool = Pool(pending: seq<seq<Task>>, playing: set<nat>, executor: seq<Job>)

  /** ActorThreadPool.submit. */
  function SubmitPool(p: Pool, a: nat, task: Task): Pool
    requires a < |p.pending|
  {
    if a !in p.playing then
      p.(playing := p.playing + {a}, executor := p.executor + [Job(a, task)])
    else
      p.(pending := p.pending[a := p.pending[a] + [task]])
  }

  /** ActorThreadPool.complete. */
  function CompletePool(p: Pool, a: nat): Pool
    requires a < |p.pending|
  {
    if p.pending[a] == [] then
      p.(playing := p.playing - {a})
    else
      p.(pending := p.pending[a := p.pending[a][1..]], executor := p.executor + [Job(a, p.pending[a][0])])
  }

  datatype Phase =
    | Idle
    | Leased(actor: nat, buf: nat)
    | Ready(actor: nat, task: Task)
    | Running(actor: nat, task: Task, pos: nat)
    | Completing(actor: nat)

  /** Buffer contents, the shared buffer pool, one decoder per connection, and the history of
      bytes received and of chunks submitted and begun per connection. */
  datatype Env = Env(mem: seq<string>, free: seq<nat>, dec: seq<Decoder>, received: seq<string>,
                     submitted: seq<seq<string>>, begun: seq<seq<string>>)

  datatype State = State(pool: Pool, env: Env, threads: seq<Phase>, workers: nat)

  const BUFFER_SIZE: nat := 8192

  /** `Read` carries the bytes `chan.read` delivers. */
  datatype Step =
    | Lease(t: nat, a: nat)
    | Read(t: nat, data: string)
    | ReadFails(t: nat)
    | Submit(t: nat)
    | Take(t: nat)
    | RunByte(t: nat)
    | Release(t: nat)
    | Complete(t: nat)

  ghost predicate Init(s: State) {
    && var n := |s.pool.pending|;
    && s.pool == Pool(seq(n, _ => []), {}, [])
    && s.env == Env([], [], seq(n, _ => Decoder("", [])), seq(n, _ => ""), seq(n, _ => []), seq(n, _ => []))
    && s.threads == seq(|s.threads|, _ => Idle)
    && s.workers <= |s.threads|
  }

  predicate Enabled(s: State, st: Step) {
    && st.t < |s.threads|
    && var p := s.threads[st.t];
    match st
    case Lease(t, a) => t >= s.workers && p.Idle? && a < |s.pool.pending|
    case Read(t, data) => p.Leased? && p.buf < |s.env.mem| && p.actor < |s.env.received| && |data| <= BUFFER_SIZE
    case ReadFails(t) => p.Leased?
    case Submit(t) => p.Ready? && p.actor < |s.pool.pending| && p.actor < |s.env.submitted|
    case Take(t) => t < s.workers && p.Idle? && s.pool.executor != [] && s.pool.executor[0].actor < |s.env.begun|
    case RunByte(t) => p.Running? && p.task.buf < |s.env.mem| && p.pos < |s.env.mem[p.task.buf]| && p.actor < |s.env.dec|
    case Release(t) => p.Running? && p.task.buf < |s.env.mem| && p.pos >= |s.env.mem[p.task.buf]|
    case Complete(t) => p.Completing? && p.actor < |s.pool.pending|
  }

  function LeaseEnv(e: Env): (Env, nat) {
    if e.free == [] then (e.(mem := e.mem + [""]), |e.mem|)
    else (e.(free := e.free[1..]), e.free[0])
  }

  function Apply(s: State, st: Step): State
    requires Enabled(s, st)
  {
    var p := s.threads[st.t];
    var e := s.env;
    match st
    case Lease(t, a) =>
      var (e', b) := LeaseEnv(e);
      s.(env := e', threads := s.threads[t := Leased(a, b)])
    case Read(t, data) =>
      s.(env := e.(mem := e.mem[p.buf := data], received := e.received[p.actor := e.received[p.actor] + data]),
         threads := s.threads[t := Ready(p.actor, Task(p.buf, data))])
    case ReadFails(t) =>
      s.(env := e.(free := e.free + [p.buf]), threads := s.threads[t := Idle])
    case Submit(t) =>
      s.(pool := SubmitPool(s.pool, p.actor, p.task),
         env := e.(submitted := e.submitted[p.actor := e.submitted[p.actor] + [p.task.chunk]]),
         threads := s.threads[t := Idle])
    case Take(t) =>
      var j := s.pool.executor[0];
      s.(pool := s.pool.(executor := s.pool.executor[1..]),
         env := e.(begun := e.begun[j.actor := e.begun[j.actor] + [j.task.chunk]]),
         threads := s.threads[t := Running(j.actor, j.task, 0)])
    case RunByte(t) =>
      var fed := Feed(e.dec[p.actor], e.mem[p.task.buf][p.pos]);
      var pos := if fed.thrown then |e.mem[p.task.buf]| else p.pos + 1;
      s.(env := e.(dec := e.dec[p.actor := fed.decoder]), threads := s.threads[t := p.(pos := pos)])
    case Release(t) =>
      s.(env := e.(free := e.free + [p.task.buf]), threads := s.threads[t := Completing(p.actor)])
    case Complete(t) =>
      s.(pool := CompletePool(s.pool, p.actor), threads := s.threads[t := Idle])
  }

  ghost predicate Next(s: State, s': State) {
    exists st :: Enabled(s, st) && s' == Apply(s, st)
  }

  // ---------- what is where ----------

  function JobToken(j: Job, a: nat): nat { if j.actor == a then 1 else 0 }

  function PhaseToken(p: Phase, a: nat): nat {
    if (p.Running? || p.Completing?) && p.actor == a then 1 else 0
  }

  /** Jobs of actor `a` in the executor plus threads working for it. */
  function Tokens(s: State, a: nat): nat {
    Count(s.pool.executor, JobToken, a) + Count(s.threads, PhaseToken, a)
  }

  function FreeBuf(x: nat, b: nat): nat { if x == b then 1 else 0 }

  function TaskBuf(t: Task, b: nat): nat { if t.buf == b then 1 else 0 }

  function JobBuf(j: Job, b: nat): nat { TaskBuf(j.task, b) }

  function QueueBuf(q: seq<Task>, b: nat): nat { Count(q, TaskBuf, b) }

  function PhaseBuf(p: Phase, b: nat): nat {
    match p
    case Leased(_, x) => FreeBuf(x, b)
    case Ready(_, task) => TaskBuf(task, b)
    case Running(_, task, _) => TaskBuf(task, b)
    case _ => 0
  }

  function PoolBufs(p: Pool, b: nat): nat {
    Count(p.executor, JobBuf, b) + Count(p.pending, QueueBuf, b)
  }

  /** In how many places buffer `b` is: free, with a thread, or owned by an unfinished task. */
  function Places(s: State, b: nat): nat {
    Count(s.env.free, FreeBuf, b) + PoolBufs(s.pool, b) + Count(s.threads, PhaseBuf, b)
  }

  function Chunks(q: seq<Task>): (r: seq<string>)
    ensures |r| == |q| && forall i :: 0 <= i < |q| ==> r[i] == q[i].chunk
  {
    seq(|q|, i requires 0 <= i < |q| => q[i].chunk)
  }

  /** Chunks of the jobs of actor `a` waiting in the executor, in order. */
  function ExecChunks(jobs: seq<Job>, a: nat): seq<string> {
    if jobs == [] then []
    else ExecChunks(jobs[..|jobs| - 1], a) + (if jobs[|jobs| - 1].actor == a then [jobs[|jobs| - 1].task.chunk] else [])
  }

  // ---------- invariants ----------

  ghost predicate Shape(s: State) {
    && var n := |s.pool.pending|;
    && |s.env.dec| == n && |s.env.received| == n && |s.env.submitted| == n && |s.env.begun| == n
    && (forall j :: j in s.pool.executor ==> j.actor < n)
    && (forall t :: 0 <= t < |s.threads| && !s.threads[t].Idle? ==> s.threads[t].actor < n)
    && s.workers <= |s.threads|
  }

  /** One token for each playing actor, and nothing waits for an actor that is not playing. */
  ghost predicate TokenInv(s: State) {
    && (forall a: nat :: Tokens(s, a) == if a in s.pool.playing then 1 else 0)
    && (forall a :: 0 <= a < |s.pool.pending| && a !in s.pool.playing ==> s.pool.pending[a] == [])
  }

  /** Every buffer ever allocated is in exactly one place. */
  ghost predicate BufInv(s: State) {
    forall b: nat :: Places(s, b) == if b < |s.env.mem| then 1 else 0
  }

  ghost predicate Intact(mem: seq<string>, t: Task) {
    t.buf < |mem| && mem[t.buf] == t.chunk
  }

  /** The buffer of an unfinished task still holds the bytes that were read for it. */
  ghost predicate MemInv(s: State) {
    && (forall j :: j in s.pool.executor ==> Intact(s.env.mem, j.task))
    && (forall a, k :: 0 <= a < |s.pool.pending| && 0 <= k < |s.pool.pending[a]| ==> Intact(s.env.mem, s.pool.pending[a][k]))
    && (forall t :: 0 <= t < |s.threads| ==>
          && (s.threads[t].Ready? || s.threads[t].Running? ==> Intact(s.env.mem, s.threads[t].task))
          && (s.threads[t].Leased? ==> s.threads[t].buf < |s.env.mem|))
  }

  /** Submission order: what began, then what is in the executor, then what is pending. */
  ghost predicate OrderInv(s: State)
    requires Shape(s)
  {
    forall a :: 0 <= a < |s.pool.pending| ==>
      s.env.submitted[a] == s.env.begun[a] + ExecChunks(s.pool.executor, a) + Chunks(s.pool.pending[a])
  }

  ghost predicate RunningFor(s: State, t: nat, a: nat) {
    t < |s.threads| && s.threads[t].Running? && s.threads[t].actor == a
  }

  /** The decoder has consumed exactly the chunks begun, up to the rest of a running task. */
  ghost predicate DecInv(s: State)
    requires Shape(s)
  {
    && (forall t :: 0 <= t < |s.threads| && s.threads[t].Running? ==>
          var p := s.threads[t];
          && p.pos <= |p.task.chunk|
          && FeedChunk(s.env.dec[p.actor], p.task.chunk[p.pos..]) == FeedChunks(s.env.begun[p.actor]))
    && (forall a :: 0 <= a < |s.pool.pending| && (forall t :: !RunningFor(s, t, a)) ==>
          s.env.dec[a] == FeedChunks(s.env.begun[a]))
  }

  /** Pool threads run tasks and the others read. */
  ghost predicate KindInv(s: State) {
    forall t :: 0 <= t < |s.threads| ==>
      if t < s.workers then !s.threads[t].Leased? && !s.threads[t].Ready?
      else s.threads[t].Idle? || s.threads[t].Leased? || s.threads[t].Ready?
  }

  /** The reactor has one selector thread. */
  ghost predicate OneSelector(s: State) {
    |s.threads| == s.workers + 1
  }

  function ReadButNotSubmitted(p: Phase, a: nat): string {
    if p.Ready? && p.actor == a then p.task.chunk else ""
  }

  /** With one selector, chunks are submitted in the order they were read. */
  ghost predicate ReceivedInv(s: State)
    requires Shape(s)
  {
    OneSelector(s) ==> forall a :: 0 <= a < |s.pool.pending| ==>
      s.env.received[a] == Flat(s.env.submitted[a]) + ReadButNotSubmitted(s.threads[s.workers], a)
  }

  ghost predicate Inv(s: State) {
    && Shape(s) && TokenInv(s) && BufInv(s) && MemInv(s) && OrderInv(s) && DecInv(s)
    && KindInv(s) && ReceivedInv(s)
  }

  lemma InitInv(s: State)
    requires Init(s)
    ensures Inv(s)
  {
    forall a: nat ensures Tokens(s, a) == 0 && Places(s, a) == 0 {
      CountNone(s.threads, PhaseToken, a);
      CountNone(s.threads, PhaseBuf, a);
      CountNone(s.pool.pending, QueueBuf, a);
    }
    assert forall a :: 0 <= a < |s.pool.pending| ==> Chunks(s.pool.pending[a]) == [];
  }

  // ---------- tokens ----------

  /** An actor that a thread works for is playing, has no job in the executor and no other
      thread. */
  lemma HolderIsAlone(s: State, t: nat)
    requires TokenInv(s) && t < |s.threads| && (s.threads[t].Running? || s.threads[t].Completing?)
    ensures s.threads[t].actor in s.pool.playing
    ensures forall u :: 0 <= u < |s.threads| && u != t && (s.threads[u].Running? || s.threads[u].Completing?) ==>
              s.threads[u].actor != s.threads[t].actor
    ensures forall j :: j in s.pool.executor ==> j.actor != s.threads[t].actor
  {
    var a := s.threads[t].actor;
    CountOne(s.threads, t, PhaseToken, a);
    assert Tokens(s, a) <= 1;
    forall u | 0 <= u < |s.threads| && u != t && (s.threads[u].Running? || s.threads[u].Completing?)
      ensures s.threads[u].actor != a
    {
      CountTwo(s.threads, t, u, PhaseToken, a);
    }
    forall j | j in s.pool.executor ensures j.actor != a {
      var i :| 0 <= i < |s.pool.executor| && s.pool.executor[i] == j;
      CountOne(s.pool.executor, i, JobToken, a);
    }
  }

  /** The actor of a job in the executor is playing and no thread works for it. */
  lemma JobIsAlone(s: State, i: nat)
    requires TokenInv(s) && i < |s.pool.executor|
    ensures s.pool.executor[i].actor in s.pool.playing
    ensures forall u :: 0 <= u < |s.threads| && (s.threads[u].Running? || s.threads[u].Completing?) ==>
              s.threads[u].actor != s.pool.executor[i].actor
    ensures forall k :: 0 <= k < |s.pool.executor| && k != i ==> s.pool.executor[k].actor != s.pool.executor[i].actor
  {
    var a := s.pool.executor[i].actor;
    CountOne(s.pool.executor, i, JobToken, a);
    assert Tokens(s, a) <= 1;
    forall u | 0 <= u < |s.threads| && (s.threads[u].Running? || s.threads[u].Completing?)
      ensures s.threads[u].actor != a
    {
      CountOne(s.threads, u, PhaseToken, a);
    }
    forall k | 0 <= k < |s.pool.executor| && k != i ensures s.pool.executor[k].actor != a {
      CountTwo(s.pool.executor, k, i, JobToken, a);
    }
  }

  lemma StepShape(s: State, st: Step)
    requires Shape(s) && Enabled(s, st)
    ensures Shape(Apply(s, st))
  {
    if st.Take? {
      assert s.pool.executor[0] in s.pool.executor;
    }
  }

  /** How the step changes the tokens of actor `a`. */
  lemma TokensAfter(s: State, st: Step, a: nat)
    requires Enabled(s, st)
    ensures Tokens(Apply(s, st), a) ==
              Tokens(s, a)
              + (if st.Submit? && s.threads[st.t].actor == a && a !in s.pool.playing then 1 else 0)
              - (if st.Complete? && s.threads[st.t].actor == a && s.pool.pending[a] == [] then 1 else 0)
  {
    hide Count;
    var p := s.threads[st.t];
    CountUpdate(s.threads, st.t, Apply(s, st).threads[st.t], PhaseToken, a);
    match st {
      case Submit(t) => CountSnoc(s.pool.executor, Job(p.actor, p.task), JobToken, a);
      case Take(t) => CountUncons(s.pool.executor, JobToken, a);
      case Complete(t) =>
        if s.pool.pending[p.actor] != [] {
          CountSnoc(s.pool.executor, Job(p.actor, s.pool.pending[p.actor][0]), JobToken, a);
        }
      case _ =>
    }
  }

  lemma StepTokens(s: State, st: Step)
    requires TokenInv(s) && Enabled(s, st)
    ensures TokenInv(Apply(s, st))
  {
    var s' := Apply(s, st);
    if st.Complete? { HolderIsAlone(s, st.t); }
    forall a: nat ensures Tokens(s', a) == if a in s'.pool.playing then 1 else 0 {
      TokensAfter(s, st, a);
      assert Tokens(s, a) == if a in s.pool.playing then 1 else 0;
    }
  }

  // ---------- buffers ----------

  lemma SubmitBufs(p: Pool, a: nat, task: Task, b: nat)
    requires a < |p.pending|
    ensures PoolBufs(SubmitPool(p, a, task), b) == PoolBufs(p, b) + TaskBuf(task, b)
  {
    CountSnoc(p.executor, Job(a, task), JobBuf, b);
    CountUpdate(p.pending, a, p.pending[a] + [task], QueueBuf, b);
    CountSnoc(p.pending[a], task, TaskBuf, b);
  }

  lemma CompleteBufs(p: Pool, a: nat, b: nat)
    requires a < |p.pending|
    ensures PoolBufs(CompletePool(p, a), b) == PoolBufs(p, b)
  {
    var q := p.pending[a];
    if q != [] {
      CountSnoc(p.executor, Job(a, q[0]), JobBuf, b);
      CountUpdate(p.pending, a, q[1..], QueueBuf, b);
      CountUncons(q, TaskBuf, b);
    }
  }

  lemma PlacesAfterPoolStep(s: State, st: Step, b: nat)
    requires Enabled(s, st) && (st.Submit? || st.Take? || st.Complete?)
    ensures Places(Apply(s, st), b) == Places(s, b)
  {
    var p := s.threads[st.t];
    CountUpdate(s.threads, st.t, Apply(s, st).threads[st.t], PhaseBuf, b);
    match st {
      case Submit(t) => SubmitBufs(s.pool, p.actor, p.task, b);
      case Take(t) => CountUncons(s.pool.executor, JobBuf, b);
      case Complete(t) => CompleteBufs(s.pool, p.actor, b);
    }
  }

  /** A step moves buffers around; only a lease from an empty pool adds one. */
  lemma PlacesAfter(s: State, st: Step, b: nat)
    requires Enabled(s, st)
    ensures Places(Apply(s, st), b)
         == Places(s, b) + (if st.Lease? && s.env.free == [] && b == |s.env.mem| then 1 else 0)
  {
    if st.Submit? || st.Take? || st.Complete? {
      PlacesAfterPoolStep(s, st, b);
    } else {
      CountUpdate(s.threads, st.t, Apply(s, st).threads[st.t], PhaseBuf, b);
      if st.Lease? && s.env.free != [] {
        CountUncons(s.env.free, FreeBuf, b);
      } else if st.ReadFails? {
        CountSnoc(s.env.free, s.threads[st.t].buf, FreeBuf, b);
      } else if st.Release? {
        CountSnoc(s.env.free, s.threads[st.t].task.buf, FreeBuf, b);
      }
    }
  }

  lemma StepBufs(s: State, st: Step)
    requires BufInv(s) && Enabled(s, st)
    ensures BufInv(Apply(s, st))
  {
    var s' := Apply(s, st);
    forall b: nat ensures Places(s', b) == if b < |s'.env.mem| then 1 else 0 {
      PlacesAfter(s, st, b);
      assert Places(s, b) == if b < |s.env.mem| then 1 else 0;
    }
  }

  /** A leased buffer belongs to no task, so reading into it disturbs none. */
  lemma LeasedIsPrivate(s: State, t: nat)
    requires BufInv(s) && t < |s.threads| && s.threads[t].Leased?
    ensures forall j :: j in s.pool.executor ==> j.task.buf != s.threads[t].buf
    ensures forall a, k :: 0 <= a < |s.pool.pending| && 0 <= k < |s.pool.pending[a]| ==> s.pool.pending[a][k].buf != s.threads[t].buf
    ensures forall u :: 0 <= u < |s.threads| && (s.threads[u].Ready? || s.threads[u].Running?) ==> s.threads[u].task.buf != s.threads[t].buf
  {
    var b := s.threads[t].buf;
    CountOne(s.threads, t, PhaseBuf, b);
    assert Places(s, b) <= 1;
    forall j | j in s.pool.executor ensures j.task.buf != b {
      var i :| 0 <= i < |s.pool.executor| && s.pool.executor[i] == j;
      CountOne(s.pool.executor, i, JobBuf, b);
    }
    forall a, k | 0 <= a < |s.pool.pending| && 0 <= k < |s.pool.pending[a]| ensures s.pool.pending[a][k].buf != b {
      CountOne(s.pool.pending[a], k, TaskBuf, b);
      CountOne(s.pool.pending, a, QueueBuf, b);
    }
    forall u | 0 <= u < |s.threads| && (s.threads[u].Ready? || s.threads[u].Running?) ensures s.threads[u].task.buf != b {
      CountTwo(s.threads, t, u, PhaseBuf, b);
    }
  }

  lemma StepMem(s: State, st: Step)
    requires Shape(s) && BufInv(s) && MemInv(s) && Enabled(s, st)
    ensures MemInv(Apply(s, st))
  {
    match st {
      case Lease(t, a) =>
        if s.env.free != [] {
          CountOne(s.env.free, 0, FreeBuf, s.env.free[0]);
          assert Places(s, s.env.free[0]) >= 1;
        }
      case Read(t, data) => LeasedIsPrivate(s, t);
      case Take(t) => assert s.pool.executor[0] in s.pool.executor;
      case _ =>
    }
  }

  // ---------- order and decoding ----------

  lemma {:induction false} ExecChunksUncons(jobs: seq<Job>, a: nat)
    requires jobs != []
    ensures ExecChunks(jobs, a) == (if jobs[0].actor == a then [jobs[0].task.chunk] else []) + ExecChunks(jobs[1..], a)
  {
    var n := |jobs| - 1;
    if n > 0 {
      ExecChunksUncons(jobs[..n], a);
      assert jobs[..n][1..] == jobs[1..][..n - 1];
    } else {
      assert jobs[..0] == [] && jobs[1..] == [];
    }
  }

  lemma {:induction false} ExecChunksNone(jobs: seq<Job>, a: nat)
    requires forall j :: j in jobs ==> j.actor != a
    ensures ExecChunks(jobs, a) == []
  {
    if jobs != [] {
      assert jobs[|jobs| - 1] in jobs;
      ExecChunksNone(jobs[..|jobs| - 1], a);
    }
  }

  lemma ExecChunksSnoc(jobs: seq<Job>, j: Job, a: nat)
    ensures ExecChunks(jobs + [j], a) == ExecChunks(jobs, a) + (if j.actor == a then [j.task.chunk] else [])
  {
    assert (jobs + [j])[..|jobs|] == jobs;
  }

  /** An actor that is not playing has nothing in the executor. */
  lemma NotPlayingNoJob(s: State, a: nat)
    requires TokenInv(s) && a !in s.pool.playing
    ensures forall j :: j in s.pool.executor ==> j.actor != a
    ensures forall t :: !RunningFor(s, t, a)
  {
    forall j | j in s.pool.executor ensures j.actor != a {
      var i :| 0 <= i < |s.pool.executor| && s.pool.executor[i] == j;
      JobIsAlone(s, i);
    }
    forall t ensures !RunningFor(s, t, a) {
      if RunningFor(s, t, a) { HolderIsAlone(s, t); }
    }
  }

  lemma SubmitOrder(s: State, t: nat)
    requires Shape(s) && TokenInv(s) && OrderInv(s) && Enabled(s, Submit(t)) && Shape(Apply(s, Submit(t)))
    ensures OrderInv(Apply(s, Submit(t)))
  {
    hide Count, Tokens, ExecChunks, Flat;
    var s' := Apply(s, Submit(t));
    var p := s.threads[t];
    if p.actor !in s.pool.playing {
      NotPlayingNoJob(s, p.actor);
      ExecChunksNone(s.pool.executor, p.actor);
      forall a | 0 <= a < |s.pool.pending|
        ensures s'.env.submitted[a] == s'.env.begun[a] + ExecChunks(s'.pool.executor, a) + Chunks(s'.pool.pending[a])
      {
        ExecChunksSnoc(s.pool.executor, Job(p.actor, p.task), a);
      }
    } else {
      assert Chunks(s.pool.pending[p.actor] + [p.task]) == Chunks(s.pool.pending[p.actor]) + [p.task.chunk];
    }
  }

  lemma TakeOrder(s: State, t: nat)
    requires Shape(s) && TokenInv(s) && OrderInv(s) && Enabled(s, Take(t)) && Shape(Apply(s, Take(t)))
    ensures OrderInv(Apply(s, Take(t)))
  {
    forall a | 0 <= a < |s.pool.pending|
      ensures var s' := Apply(s, Take(t));
              s'.env.submitted[a] == s'.env.begun[a] + ExecChunks(s'.pool.executor, a) + Chunks(s'.pool.pending[a])
    {
      ExecChunksUncons(s.pool.executor, a);
    }
  }

  lemma CompleteChunks(p: Pool, b: nat, a: nat)
    requires a < |p.pending| && b < |p.pending| && forall j :: j in p.executor ==> j.actor != b
    ensures ExecChunks(CompletePool(p, b).executor, a) + Chunks(CompletePool(p, b).pending[a])
         == ExecChunks(p.executor, a) + Chunks(p.pending[a])
  {
    var q := p.pending[b];
    if q != [] {
      ExecChunksSnoc(p.executor, Job(b, q[0]), a);
      ExecChunksNone(p.executor, b);
      assert Chunks(q) == [q[0].chunk] + Chunks(q[1..]);
    }
  }

  lemma Regroup<T>(x: seq<T>, y: seq<T>, z: seq<T>, y': seq<T>, z': seq<T>)
    requires y + z == y' + z'
    ensures x + y + z == x + y' + z'
  {
    assert x + y + z == x + (y + z) && x + y' + z' == x + (y' + z');
  }

  lemma CompleteOrder(s: State, t: nat)
    requires Shape(s) && TokenInv(s) && OrderInv(s) && Enabled(s, Complete(t)) && Shape(Apply(s, Complete(t)))
    ensures OrderInv(Apply(s, Complete(t)))
  {
    var b := s.threads[t].actor;
    var p' := CompletePool(s.pool, b);
    HolderIsAlone(s, t);
    forall a | 0 <= a < |s.pool.pending|
      ensures s.env.submitted[a] == s.env.begun[a] + ExecChunks(p'.executor, a) + Chunks(p'.pending[a])
    {
      CompleteChunks(s.pool, b, a);
      Regroup(s.env.begun[a], ExecChunks(s.pool.executor, a), Chunks(s.pool.pending[a]),
              ExecChunks(p'.executor, a), Chunks(p'.pending[a]));
    }
  }

  lemma StepOrder(s: State, st: Step)
    requires Shape(s) && TokenInv(s) && OrderInv(s) && Enabled(s, st) && Shape(Apply(s, st))
    ensures OrderInv(Apply(s, st))
  {
    match st {
      case Submit(t) => SubmitOrder(s, t);
      case Take(t) => TakeOrder(s, t);
      case Complete(t) => CompleteOrder(s, t);
      case _ =>
    }
  }

  lemma StepDecTake(s: State, t: nat)
    requires Shape(s) && TokenInv(s) && MemInv(s) && DecInv(s) && Enabled(s, Take(t)) && Shape(Apply(s, Take(t)))
    ensures DecInv(Apply(s, Take(t)))
  {
    var s' := Apply(s, Take(t));
    var j := s.pool.executor[0];
    JobIsAlone(s, 0);
    assert forall u :: !RunningFor(s, u, j.actor);
    FlatSnoc(s.env.begun[j.actor], j.task.chunk);
    assert j.task.chunk[0..] == j.task.chunk;
    forall a | 0 <= a < |s.pool.pending| && (forall u :: !RunningFor(s', u, a))
      ensures s'.env.dec[a] == FeedChunks(s'.env.begun[a])
    {
      assert RunningFor(s', t, j.actor);
      assert forall u :: RunningFor(s, u, a) ==> RunningFor(s', u, a);
    }
  }

  lemma StepDecRunByte(s: State, t: nat)
    requires Shape(s) && TokenInv(s) && MemInv(s) && DecInv(s) && Enabled(s, RunByte(t)) && Shape(Apply(s, RunByte(t)))
    ensures DecInv(Apply(s, RunByte(t)))
  {
    var s' := Apply(s, RunByte(t));
    var p := s.threads[t];
    HolderIsAlone(s, t);
    assert Intact(s.env.mem, p.task);
    var left := p.task.chunk[p.pos..];
    assert left[0] == p.task.chunk[p.pos] && left[1..] == p.task.chunk[p.pos + 1..];
    assert p.task.chunk[|p.task.chunk|..] == "";
    forall a | 0 <= a < |s.pool.pending| && (forall u :: !RunningFor(s', u, a))
      ensures s'.env.dec[a] == FeedChunks(s'.env.begun[a])
    {
      assert RunningFor(s', t, p.actor);
      assert forall u :: RunningFor(s, u, a) ==> RunningFor(s', u, a);
    }
  }

  lemma StepDecRelease(s: State, t: nat)
    requires Shape(s) && TokenInv(s) && MemInv(s) && DecInv(s) && Enabled(s, Release(t)) && Shape(Apply(s, Release(t)))
    ensures DecInv(Apply(s, Release(t)))
  {
    var s' := Apply(s, Release(t));
    var p := s.threads[t];
    assert Intact(s.env.mem, p.task);
    assert p.task.chunk[p.pos..] == "";
    forall a | 0 <= a < |s.pool.pending| && (forall u :: !RunningFor(s', u, a))
      ensures s'.env.dec[a] == FeedChunks(s'.env.begun[a])
    {
      if a != p.actor {
        assert forall u :: RunningFor(s, u, a) ==> RunningFor(s', u, a);
      }
    }
  }

  /** Steps that touch no decoder, no history and no running thread. */
  lemma StepDecQuiet(s: State, s': State)
    requires Shape(s) && DecInv(s) && Shape(s') && |s'.threads| == |s.threads| && |s'.pool.pending| == |s.pool.pending|
    requires s'.env.dec == s.env.dec && s'.env.begun == s.env.begun
    requires forall t :: 0 <= t < |s.threads| && (s.threads[t].Running? || s'.threads[t].Running?) ==> s'.threads[t] == s.threads[t]
    ensures DecInv(s')
  {
    forall a | 0 <= a < |s.pool.pending| && (forall u :: !RunningFor(s', u, a))
      ensures s'.env.dec[a] == FeedChunks(s'.env.begun[a])
    {
      assert forall u :: RunningFor(s, u, a) ==> RunningFor(s', u, a);
    }
  }

  lemma StepDec(s: State, st: Step)
    requires Shape(s) && TokenInv(s) && MemInv(s) && DecInv(s) && Enabled(s, st) && Shape(Apply(s, st))
    ensures DecInv(Apply(s, st))
  {
    match st {
      case Take(t) => StepDecTake(s, t);
      case RunByte(t) => StepDecRunByte(s, t);
      case Release(t) => StepDecRelease(s, t);
      case _ => StepDecQuiet(s, Apply(s, st));
    }
  }

  lemma StepKind(s: State, st: Step)
    requires KindInv(s) && Enabled(s, st)
    ensures KindInv(Apply(s, st))
  {
    hide Feed;
  }

  lemma StepReceived(s: State, st: Step)
    requires Shape(s) && KindInv(s) && ReceivedInv(s) && Enabled(s, st) && Shape(Apply(s, st))
    ensures ReceivedInv(Apply(s, st))
  {
    hide Flat, Feed;
    if st.Submit? && OneSelector(s) {
      var p := s.threads[st.t];
      FlatSnoc(s.env.submitted[p.actor], p.task.chunk);
    }
  }

  lemma StepInv(s: State, st: Step)
    requires Inv(s) && Enabled(s, st)
    ensures Inv(Apply(s, st))
  {
    StepShape(s, st);
    StepTokens(s, st);
    StepBufs(s, st);
    StepMem(s, st);
    StepOrder(s, st);
    StepDec(s, st);
    StepKind(s, st);
    StepReceived(s, st);
  }

  // ---------- what every run guarantees ----------

  ghost predicate IsRun(run: seq<State>) {
    && run != [] && Init(run[0])
    && forall i :: 0 <= i < |run| - 1 ==> Next(run[i], run[i + 1])
  }

  lemma {:induction false} RunInv(run: seq<State>, i: nat)
    requires IsRun(run) && i < |run|
    ensures Inv(run[i])
  {
    if i == 0 {
      InitInv(run[0]);
    } else {
      RunInv(run, i - 1);
      assert Next(run[i - 1], run[i - 1 + 1]);
      var st :| Enabled(run[i - 1], st) && run[i] == Apply(run[i - 1], st);
      StepInv(run[i - 1], st);
    }
  }

  ghost predicate Busy(p: Phase, a: nat) {
    (p.Running? || p.Completing?) && p.actor == a
  }

  /** At most one job or thread per actor, only playing actors have work, and tasks begin in
      submission order, each once. */
  ghost predicate ActorSafe(s: State, a: nat)
    requires Shape(s) && a < |s.pool.pending|
  {
    && (forall t, u :: 0 <= t < u < |s.threads| && Busy(s.threads[t], a) ==> !Busy(s.threads[u], a))
    && (forall i, k :: 0 <= i < k < |s.pool.executor| && s.pool.executor[i].actor == a ==> s.pool.executor[k].actor != a)
    && (forall i, t :: 0 <= i < |s.pool.executor| && 0 <= t < |s.threads| && Busy(s.threads[t], a) ==> s.pool.executor[i].actor != a)
    && (s.pool.pending[a] != [] ==> a in s.pool.playing)
    && s.env.submitted[a] == s.env.begun[a] + ExecChunks(s.pool.executor, a) + Chunks(s.pool.pending[a])
  }

  lemma PoolIsSafe(run: seq<State>, i: nat, a: nat)
    requires IsRun(run) && i < |run| && a < |run[i].pool.pending|
    ensures Shape(run[i]) && ActorSafe(run[i], a)
  {
    var s := run[i];
    RunInv(run, i);
    forall t | 0 <= t < |s.threads| && Busy(s.threads[t], a)
      ensures forall u :: 0 <= u < |s.threads| && u != t ==> !Busy(s.threads[u], a)
      ensures forall k :: 0 <= k < |s.pool.executor| ==> s.pool.executor[k].actor != a
    {
      HolderIsAlone(s, t);
    }
    forall k | 0 <= k < |s.pool.executor| && s.pool.executor[k].actor == a
      ensures forall m :: 0 <= m < |s.pool.executor| && m != k ==> s.pool.executor[m].actor != a
    {
      JobIsAlone(s, k);
    }
  }

  lemma {:induction false} FeedChunkGrows(d: Decoder, chunk: string)
    ensures d.passed <= FeedChunk(d, chunk).passed
    decreases |chunk|
  {
    if chunk != "" && !Feed(d, chunk[0]).thrown {
      FeedChunkGrows(Feed(d, chunk[0]).decoder, chunk[1..]);
    }
  }

  lemma PrefixDeliverable(ps: seq<string>, qs: seq<string>)
    requires ps <= qs && AllDeliverable(qs)
    ensures AllDeliverable(ps)
  {
    assert forall p :: p in ps ==> p in qs;
  }

  lemma ReceivedPieces(s: State, a: nat)
    requires Shape(s) && ReceivedInv(s) && OneSelector(s) && a < |s.pool.pending|
    ensures Pieces(Flat(s.env.submitted[a])) <= Pieces(s.env.received[a])
  {
    PiecesPrefix(Flat(s.env.submitted[a]), ReadButNotSubmitted(s.threads[s.workers], a));
  }

  /** The messages handed to `process` on a connection are always a prefix of the pieces of the
      submitted bytes, whatever the interleaving and the cutting into reads, as long as each
      piece is deliverable; and with one selector thread, of the bytes received. */
  lemma IngestPrefix(run: seq<State>, i: nat, a: nat)
    requires IsRun(run) && i < |run| && a < |run[i].pool.pending|
    requires Shape(run[i]) && AllDeliverable(Pieces(Flat(run[i].env.submitted[a])))
    ensures run[i].env.dec[a].passed <= Pieces(Flat(run[i].env.submitted[a]))
    ensures OneSelector(run[i]) ==> run[i].env.dec[a].passed <= Pieces(run[i].env.received[a])
  {
    hide Pieces, TokenInv, BufInv, MemInv, KindInv, ReceivedInv, IsRun;
    var s := run[i];
    RunInv(run, i);
    var begun, later := s.env.begun[a], ExecChunks(s.pool.executor, a) + Chunks(s.pool.pending[a]);
    assert s.env.submitted[a] == begun + later;
    FlatConcat(begun, later);
    PiecesPrefix(Flat(begun), Flat(later));
    PrefixDeliverable(Pieces(Flat(begun)), Pieces(Flat(s.env.submitted[a])));
    IngestMeaning(begun);
    if OneSelector(s) { ReceivedPieces(s, a); }
    assert s.env.dec[a].passed <= FeedChunks(begun).passed by {
      if t: nat :| t < |s.threads| && RunningFor(s, t, a) {
        FeedChunkGrows(s.env.dec[a], s.threads[t].task.chunk[s.threads[t].pos..]);
      }
    }
  }

  /** Nothing is left to do. */
  ghost predicate Quiescent(s: State) {
    s.pool.executor == [] && forall t :: 0 <= t < |s.threads| ==> s.threads[t].Idle?
  }

  /** When nothing is left to do, every submitted task has run, no actor is playing, every
      buffer is back in the pool, and the messages processed are all the pieces of the stream,
      if and only if each is deliverable. */
  lemma QuiescentIsDone(run: seq<State>, i: nat, a: nat)
    requires IsRun(run) && i < |run| && a < |run[i].pool.pending| && Quiescent(run[i])
    ensures var s := run[i];
            && Shape(s) && s.pool.playing == {} && s.pool.pending[a] == []
            && s.env.begun[a] == s.env.submitted[a]
            && (forall b: nat :: Count(s.env.free, FreeBuf, b) == if b < |s.env.mem| then 1 else 0)
            && (s.env.dec[a].passed == Pieces(Flat(s.env.submitted[a]))
                <==> AllDeliverable(Pieces(Flat(s.env.submitted[a]))))
            && (OneSelector(s) ==> s.env.received[a] == Flat(s.env.submitted[a]))
  {
    var s := run[i];
    RunInv(run, i);
    QuiescentPool(s);
    assert Chunks(s.pool.pending[a]) == [];
    assert forall t :: !RunningFor(s, t, a);
    IngestMeaning(s.env.begun[a]);
  }

  lemma QuiescentPool(s: State)
    requires Inv(s) && Quiescent(s)
    ensures s.pool.playing == {} && forall a :: 0 <= a < |s.pool.pending| ==> s.pool.pending[a] == []
    ensures forall b: nat :: Count(s.env.free, FreeBuf, b) == if b < |s.env.mem| then 1 else 0
  {
    forall a: nat ensures a !in s.pool.playing {
      CountNone(s.threads, PhaseToken, a);
      assert Tokens(s, a) == if a in s.pool.playing then 1 else 0;
    }
    forall b: nat ensures Count(s.env.free, FreeBuf, b) == if b < |s.env.mem| then 1 else 0 {
      CountNone(s.threads, PhaseBuf, b);
      CountNone(s.pool.pending, QueueBuf, b);
      assert Places(s, b) == if b < |s.env.mem| then 1 else 0;
    }
  }

  /** Every buffer is in exactly one place in every reachable state. */
  lemma BuffersHaveOneOwner(run: seq<State>, i: nat, b: nat)
    requires IsRun(run) && i < |run|
    ensures Places(run[i], b) == if b < |run[i].env.mem| then 1 else 0
  {
    RunInv(run, i);
  }
}
