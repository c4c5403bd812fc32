/** The write path of the reactor: pool threads enqueue messages and ask for write interest
    through `selectorTasks` and `wakeup`, while the selector thread drains tasks and writes
    partially.  Any number of channels and senders, any interleaving. */
module WritePath {

  /** What happened on a channel: its read side ended it; a message was enqueued after `terminate`
      had been set; and the selector was still to write on it when `terminate` was set, or has
      been given a message since. */
  datatype Past = Past(ended: bool, announced: bool, due: bool)

  /** `log` and `wire` record everything enqueued and everything written on the channel. */
  datatype Chan = Chan(queue: seq<string>, wire: string, log: string, opWrite: bool, open: bool, terminate: bool, past: Past)

  /** Where the selector thread is: blocked in or entering `select`, running selector tasks,
      walking the selected keys, or inside continueWrite for channel `c`. */
  datatype Selector =
    | Select
    | Drain
    | Keys
    | LoopTest(c: nat)
    | Peeked(c: nat)
    | AfterWrite(c: nat)
    | Recheck(c: nat)
    | TermTest(c: nat)

  /** A sender past the isClosed test, past `writeQueue.add`, or past `selectorTasks.add`. */
  datatype Sender = Idle | Adding(c: nat, msg: string) | Posting(c: nat) | Waking

  datatype State = State(chans: seq<Chan>, tasks: seq<nat>, wake: bool, sel: Selector, senders: seq<Sender>)

  datatype Step =
    | Send(i: nat, c: nat, msg: string)
    | Add(i: nat)
    | Post(i: nat)
    | Wake(i: nat)
    | SetTerminate(c: nat)
    | SelectReturns
    | DrainOne
    | DrainDone
    | PickKey(c: nat)
    | ReadEnds(c: nat)
    | KeysDone
    | TestLoop
    | WriteSome(k: nat)
    | WriteReturned
    | RecheckQueue
    | Finish

  const NEW: Chan := Chan([], "", "", false, true, false, Past(false, false, false))

  ghost predicate Init(s: State) {
    && (forall c :: 0 <= c < |s.chans| ==> s.chans[c] == NEW)
    && s.tasks == [] && !s.wake && s.sel == Select
    && (forall i :: 0 <= i < |s.senders| ==> s.senders[i] == Idle)
  }

  predicate Enabled(s: State, st: Step) {
    match st
    case Send(i, c, msg) => i < |s.senders| && s.senders[i] == Idle && c < |s.chans| && s.chans[c].open && msg != ""
    case Add(i) => i < |s.senders| && s.senders[i].Adding? && s.senders[i].c < |s.chans|
    case Post(i) => i < |s.senders| && s.senders[i].Posting?
    case Wake(i) => i < |s.senders| && s.senders[i].Waking?
    case SetTerminate(c) => c < |s.chans|
    case SelectReturns => s.sel == Select
    case DrainOne => s.sel == Drain && s.tasks != [] && s.tasks[0] < |s.chans|
    case DrainDone => s.sel == Drain && s.tasks == []
    case PickKey(c) => s.sel == Keys && c < |s.chans| && s.chans[c].open && s.chans[c].opWrite
    case ReadEnds(c) => s.sel == Keys && c < |s.chans| && s.chans[c].open
    case KeysDone => s.sel == Keys
    case TestLoop => s.sel.LoopTest? && s.sel.c < |s.chans|
    case WriteSome(k) => s.sel.Peeked? && s.sel.c < |s.chans| && s.chans[s.sel.c].queue != [] && k <= |s.chans[s.sel.c].queue[0]|
    case WriteReturned => s.sel.AfterWrite? && s.sel.c < |s.chans| && s.chans[s.sel.c].queue != []
    case RecheckQueue => s.sel.Recheck? && s.sel.c < |s.chans|
    case Finish => s.sel.TermTest? && s.sel.c < |s.chans|
  }

  /** Someone will still set the channel's write interest: a waiting task, or a sender that has
      enqueued and not yet posted its task. */
  ghost predicate Promised(s: State, c: nat) {
    c in s.tasks || exists i :: 0 <= i < |s.senders| && s.senders[i] == Posting(c)
  }

  /** A message for a channel told to terminate before. */
  function Enqueued(past: Past, terminate: bool): Past {
    if terminate then past.(announced := true, due := true) else past
  }

  /** A message joins the queue. */
  function Queued(ch: Chan, m: string): Chan {
    ch.(queue := ch.queue + [m], log := ch.log + m, past := Enqueued(ch.past, ch.terminate))
  }

  ghost function Apply(s: State, st: Step): State
    requires Enabled(s, st)
  {
    match st
    case Send(i, c, msg) => s.(senders := s.senders[i := Adding(c, msg)])
    case Add(i) =>
      var c, m := s.senders[i].c, s.senders[i].msg;
      s.(chans := s.chans[c := Queued(s.chans[c], m)], senders := s.senders[i := Posting(c)])
    case Post(i) => s.(tasks := s.tasks + [s.senders[i].c], senders := s.senders[i := Waking])
    case Wake(i) => s.(wake := true, senders := s.senders[i := Idle])
    case SetTerminate(c) =>
      var ch := s.chans[c];
      var due := ch.past.due || ch.opWrite || Promised(s, c);
      s.(chans := s.chans[c := ch.(terminate := true, past := ch.past.(due := due))])
    case SelectReturns => s.(wake := false, sel := Drain)
    case DrainOne => s.(tasks := s.tasks[1..], chans := s.chans[s.tasks[0] := s.chans[s.tasks[0]].(opWrite := true)])
    case DrainDone => s.(sel := Keys)
    case PickKey(c) => s.(sel := LoopTest(c))
    case ReadEnds(c) =>
      s.(chans := s.chans[c := s.chans[c].(open := false, past := s.chans[c].past.(ended := true))])
    case KeysDone => s.(sel := Select)
    case TestLoop => s.(sel := if s.chans[s.sel.c].queue != [] then Peeked(s.sel.c) else Recheck(s.sel.c))
    case WriteSome(k) =>
      var ch := s.chans[s.sel.c];
      s.(chans := s.chans[s.sel.c := ch.(wire := ch.wire + ch.queue[0][..k], queue := ch.queue[0 := ch.queue[0][k..]])],
         sel := AfterWrite(s.sel.c))
    case WriteReturned =>
      var ch := s.chans[s.sel.c];
      if ch.queue[0] != "" then s.(sel := Keys)
      else s.(chans := s.chans[s.sel.c := ch.(queue := ch.queue[1..])], sel := LoopTest(s.sel.c))
    case RecheckQueue => s.(sel := if s.chans[s.sel.c].queue == [] then TermTest(s.sel.c) else Keys)
    case Finish =>
      var ch := s.chans[s.sel.c];
      s.(chans := s.chans[s.sel.c := if ch.terminate then ch.(open := false) else ch.(opWrite := false)], sel := Keys)
  }

  function Concat(q: seq<string>): string {
    if q == [] then "" else q[0] + Concat(q[1..])
  }

  lemma {:induction false} ConcatSnoc(q: seq<string>, m: string)
    ensures Concat(q + [m]) == Concat(q) + m
  {
    if q == [] {
      assert [m][1..] == [];
    } else {
      assert (q + [m])[1..] == q[1..] + [m];
      ConcatSnoc(q[1..], m);
    }
  }

  /** Bytes written followed by the unsent rest of the queue are all messages in order. */
  ghost predicate Conserved(ch: Chan) {
    ch.log == ch.wire + Concat(ch.queue)
  }

  /** Write interest is set or promised wherever a message waits; and while the selector is
      about to clear the interest, it is promised. */
  ghost predicate NotStranded(s: State) {
    forall c :: 0 <= c < |s.chans| && s.chans[c].open && s.chans[c].queue != [] ==>
      && (s.chans[c].opWrite || Promised(s, c))
      && (s.sel == TermTest(c) ==> Promised(s, c))
  }

  /** Outside the drain loop, waiting tasks mean that a wakeup is set or still to come. */
  ghost predicate NotAsleep(s: State) {
    s.tasks != [] && s.sel != Drain ==> s.wake || exists i :: 0 <= i < |s.senders| && s.senders[i] == Waking
  }

  ghost predicate Shape(s: State) {
    && (forall c :: c in s.tasks ==> c < |s.chans|)
    && (forall i :: 0 <= i < |s.senders| && (s.senders[i].Adding? || s.senders[i].Posting?) ==> s.senders[i].c < |s.chans|)
    && (!s.sel.Select? && !s.sel.Drain? && !s.sel.Keys? ==> s.sel.c < |s.chans|)
    && (s.sel.Peeked? || s.sel.AfterWrite? ==> s.chans[s.sel.c].queue != [])
  }

  predicate InContinueWrite(sel: Selector) {
    !sel.Select? && !sel.Drain? && !sel.Keys?
  }

  /** The selector writes only where interest is set, and nothing else drops the interest. */
  ghost predicate Writing(s: State) {
    InContinueWrite(s.sel) && s.sel.c < |s.chans| ==> s.chans[s.sel.c].opWrite
  }

  /** A channel told to terminate will be written once more, and so closed, if that is due; and
      otherwise nothing will ever make the selector look at it. */
  ghost predicate ClosingOf(ch: Chan, promised: bool) {
    && (ch.past.announced ==> ch.terminate && ch.past.due)
    && (!ch.terminate ==> !ch.past.due && (ch.open || ch.past.ended))
    && (ch.terminate && ch.past.due && ch.open ==> ch.opWrite || promised)
    && (ch.terminate && !ch.past.due ==> (ch.open || ch.past.ended) && !ch.opWrite && !promised)
  }

  ghost predicate Closing(s: State) {
    forall c :: 0 <= c < |s.chans| ==> ClosingOf(s.chans[c], Promised(s, c))
  }

  ghost predicate Inv(s: State) {
    && Shape(s) && NotStranded(s) && NotAsleep(s) && Writing(s) && Closing(s)
    && AllConserved(s.chans)
  }

  lemma StepShape(s: State, st: Step)
    requires Shape(s) && Enabled(s, st)
    ensures Shape(Apply(s, st))
  {
    var s' := Apply(s, st);
    forall c | c in s'.tasks ensures c < |s'.chans| {
      assert c in s.tasks || (st.Post? && c == s.senders[st.i].c);
    }
  }

  /** A promise is kept by every step except running the channel's own task. */
  lemma PromiseKept(s: State, st: Step, c: nat)
    requires Enabled(s, st) && Promised(s, c) && !(st.DrainOne? && s.tasks[0] == c)
    ensures Promised(Apply(s, st), c)
  {
    var s' := Apply(s, st);
    if c in s.tasks {
      if st.DrainOne? {
        var k :| 0 <= k < |s.tasks| && s.tasks[k] == c;
        assert s.tasks[1..][k - 1] == c;
      }
    } else {
      var i :| 0 <= i < |s.senders| && s.senders[i] == Posting(c);
      if st == Post(i) {
        assert s'.tasks[|s.tasks|] == c;
      } else {
        assert s'.senders[i] == Posting(c);
      }
    }
  }

  lemma StepNotStranded(s: State, st: Step)
    requires Shape(s) && NotStranded(s) && Enabled(s, st)
    ensures NotStranded(Apply(s, st))
  {
    var s' := Apply(s, st);
    forall c: nat | c < |s'.chans| && s'.chans[c].open && s'.chans[c].queue != []
      ensures (s'.chans[c].opWrite || Promised(s', c)) && (s'.sel == TermTest(c) ==> Promised(s', c))
    {
      if st.Add? && s.senders[st.i].c == c {
        assert s'.senders[st.i] == Posting(c);
      } else if Promised(s, c) && !(st.DrainOne? && s.tasks[0] == c) {
        PromiseKept(s, st, c);
      }
    }
  }

  /** Only enqueuing on the channel makes a promise. */
  lemma PromiseOnlyByAdd(s: State, st: Step, c: nat)
    requires Shape(s) && Enabled(s, st) && Promised(Apply(s, st), c) && !(st.Add? && s.senders[st.i].c == c)
    ensures Promised(s, c)
  {
    var s' := Apply(s, st);
    if c in s'.tasks {
      if c !in s.tasks {
        assert st.Post? && s.senders[st.i] == Posting(c);
      }
    } else {
      var i :| 0 <= i < |s'.senders| && s'.senders[i] == Posting(c);
      assert s.senders[i] == Posting(c);
    }
  }

  lemma StepWriting(s: State, st: Step)
    requires Shape(s) && Writing(s) && Enabled(s, st)
    ensures Writing(Apply(s, st))
  {
  }

  lemma StepClosing(s: State, st: Step)
    requires Shape(s) && Writing(s) && Closing(s) && Enabled(s, st)
    ensures Closing(Apply(s, st))
  {
    var s' := Apply(s, st);
    forall c: nat | c < |s'.chans| ensures ClosingOf(s'.chans[c], Promised(s', c)) {
      assert ClosingOf(s.chans[c], Promised(s, c));
      if st.Add? && s.senders[st.i].c == c {
        assert s'.senders[st.i] == Posting(c);
      } else {
        if Promised(s', c) { PromiseOnlyByAdd(s, st, c); }
        if Promised(s, c) && !(st.DrainOne? && s.tasks[0] == c) { PromiseKept(s, st, c); }
      }
    }
  }

  lemma StepNotAsleep(s: State, st: Step)
    requires NotAsleep(s) && Enabled(s, st)
    ensures NotAsleep(Apply(s, st))
  {
    var s' := Apply(s, st);
    if s'.tasks != [] && s'.sel != Drain && !s'.wake {
      if st.Post? {
        assert s'.senders[st.i] == Waking;
      } else {
        var i :| 0 <= i < |s.senders| && s.senders[i] == Waking;
        assert s'.senders[i] == Waking;
      }
    }
  }

  lemma AddConserves(ch: Chan, m: string)
    requires Conserved(ch)
    ensures Conserved(Queued(ch, m))
  {
    ConcatSnoc(ch.queue, m);
    JoinThree(ch.wire, Concat(ch.queue), m);
  }

  lemma JoinThree(a: string, b: string, c: string)
    ensures a + (b + c) == (a + b) + c
  {
  }

  ghost predicate AllConserved(chans: seq<Chan>) {
    forall c :: 0 <= c < |chans| ==> Conserved(chans[c])
  }

  lemma OneConserved(chans: seq<Chan>, c: nat, ch: Chan)
    requires AllConserved(chans) && c < |chans| && Conserved(ch)
    ensures AllConserved(chans[c := ch])
  {
    hide Conserved;
  }

  lemma DropConserves(ch: Chan)
    requires Conserved(ch) && ch.queue != [] && ch.queue[0] == ""
    ensures Conserved(ch.(queue := ch.queue[1..]))
  {
    assert "" + Concat(ch.queue[1..]) == Concat(ch.queue[1..]);
  }

  lemma SameConserves(ch: Chan, ch': Chan)
    requires Conserved(ch) && ch'.log == ch.log && ch'.wire == ch.wire && ch'.queue == ch.queue
    ensures Conserved(ch')
  {
  }

  lemma StepConserved(s: State, st: Step)
    requires Enabled(s, st) && AllConserved(s.chans)
    ensures AllConserved(Apply(s, st).chans)
  {
    hide Conserved, Concat, Promised, AllConserved;
    var c := Touched(s, st);
    if c < |s.chans| {
      var ch, ch' := s.chans[c], Apply(s, st).chans[c];
      ConservedAt(s.chans, c);
      match st {
        case Add(i) => AddConserves(ch, s.senders[i].msg);
        case WriteSome(k) => WriteConserves(ch, k);
        case WriteReturned => if ch.queue[0] == "" { DropConserves(ch); }
        case _ => SameConserves(ch, ch');
      }
      OneConserved(s.chans, c, ch');
      assert Apply(s, st).chans == s.chans[c := ch'];
    } else {
      assert Apply(s, st).chans == s.chans;
    }
  }

  /** The one channel a step may change. */
  function Touched(s: State, st: Step): nat
    requires Enabled(s, st)
  {
    match st
    case Add(i) => s.senders[i].c
    case SetTerminate(c) => c
    case DrainOne => s.tasks[0]
    case ReadEnds(c) => c
    case WriteSome(_) => s.sel.c
    case WriteReturned => s.sel.c
    case Finish => s.sel.c
    case _ => |s.chans|
  }

  lemma ConservedAt(chans: seq<Chan>, c: nat)
    requires AllConserved(chans) && c < |chans|
    ensures Conserved(chans[c])
  {
  }

  lemma WriteConserves(ch: Chan, k: nat)
    requires Conserved(ch) && ch.queue != [] && k <= |ch.queue[0]|
    ensures Conserved(ch.(wire := ch.wire + ch.queue[0][..k], queue := ch.queue[0 := ch.queue[0][k..]]))
  {
    var q := ch.queue;
    assert q[0] == q[0][..k] + q[0][k..];
    assert q[0 := q[0][k..]][1..] == q[1..];
  }

  lemma StepInv(s: State, st: Step)
    requires Inv(s) && Enabled(s, st)
    ensures Inv(Apply(s, st))
  {
    StepShape(s, st);
    StepNotStranded(s, st);
    StepNotAsleep(s, st);
    StepWriting(s, st);
    StepClosing(s, st);
    StepConserved(s, st);
  }

  ghost predicate Next(s: State, s': State) {
    exists st :: Enabled(s, st) && s' == Apply(s, st)
  }

  ghost predicate IsRun(run: seq<State>) {
    && run != [] && Init(run[0])
    && forall i :: 0 <= i < |run| - 1 ==> Next(run[i], run[i + 1])
  }

  lemma {:induction false} RunInv(run: seq<State>, i: nat)
    requires IsRun(run) && i < |run|
    ensures Inv(run[i])
  {
    if i > 0 {
      RunInv(run, i - 1);
      assert Next(run[i - 1], run[(i - 1) + 1]);
      var st :| Enabled(run[i - 1], st) && run[i] == Apply(run[i - 1], st);
      StepInv(run[i - 1], st);
    }
  }

  /** No message is stranded, and waiting selector tasks never coexist with a sleeping selector
      unless a wakeup is still to come. */
  lemma NoStrandedWrite(run: seq<State>, i: nat, c: nat)
    requires IsRun(run) && i < |run| && c < |run[i].chans|
    ensures var s := run[i];
            && (s.chans[c].open && s.chans[c].queue != [] ==> s.chans[c].opWrite || Promised(s, c))
            && (s.tasks != [] && s.sel == Select && !s.wake ==> exists k :: 0 <= k < |s.senders| && s.senders[k] == Waking)
  {
    RunInv(run, i);
  }

  /** The selector is blocked with no wakeup set, and no sender is at work. */
  ghost predicate Blocked(s: State) {
    s.sel == Select && !s.wake && forall k :: 0 <= k < |s.senders| ==> s.senders[k] == Idle
  }

  /** When the selector is blocked and every sender has finished, a channel without write
      interest has had all its messages written, in the order they were enqueued. */
  lemma BlockedMeansWritten(run: seq<State>, i: nat, c: nat)
    requires IsRun(run) && i < |run| && c < |run[i].chans| && run[i].chans[c].open
    requires Blocked(run[i])
    ensures run[i].tasks == []
    ensures !run[i].chans[c].opWrite ==> run[i].chans[c].wire == run[i].chans[c].log
  {
    RunInv(run, i);
    assert Conserved(run[i].chans[c]);
    assert Concat([]) == "";
  }

  /** Exactly when a channel told to terminate is closed.  When the selector blocks without
      waiting to write on it, and its read side has not ended it, the channel is closed if and
      only if, when the flag was set, the selector was still to write on it, or a message has
      been enqueued since. */
  lemma TerminatedIff(run: seq<State>, i: nat, c: nat)
    requires IsRun(run) && i < |run| && c < |run[i].chans| && Blocked(run[i])
    requires run[i].chans[c].terminate && !run[i].chans[c].past.ended && !run[i].chans[c].opWrite
    ensures !run[i].chans[c].open <==> run[i].chans[c].past.due
  {
    RunInv(run, i);
    assert ClosingOf(run[i].chans[c], Promised(run[i], c));
  }

  /** A log-out that asks for a receipt sets the flag before it enqueues it, so its channel is
      always closed. */
  lemma TerminatedIsClosed(run: seq<State>, i: nat, c: nat)
    requires IsRun(run) && i < |run| && c < |run[i].chans| && run[i].chans[c].past.announced
    requires Blocked(run[i]) && !run[i].chans[c].opWrite
    ensures !run[i].chans[c].open
  {
    RunInv(run, i);
    assert ClosingOf(run[i].chans[c], Promised(run[i], c));
  }

  lemma WriteConservation(run: seq<State>, i: nat, c: nat)
    requires IsRun(run) && i < |run| && c < |run[i].chans|
    ensures run[i].chans[c].log == run[i].chans[c].wire + Concat(run[i].chans[c].queue)
  {
    RunInv(run, i);
    assert Conserved(run[i].chans[c]);
  }

  // ---------- continueWrite ends ----------

  /** Steps continueWrite can still take if nothing more is enqueued on its channel. */
  function LoopWork(s: State): nat
    requires InContinueWrite(s.sel) ==> s.sel.c < |s.chans|
  {
    if !InContinueWrite(s.sel) then 0
    else
      3 * |s.chans[s.sel.c].queue| + (match s.sel
        case LoopTest(_) => 6
        case Peeked(_) => 5
        case AfterWrite(_) => 4
        case Recheck(_) => 3
        case TermTest(_) => 2
        case _ => 0)
  }

  /** Each step of the selector inside continueWrite uses up loop work, and only enqueuing on
      its channel adds some, three for each message: the call ends after finitely many sends. */
  lemma ContinueWriteEnds(s: State, st: Step)
    requires Shape(s) && Enabled(s, st) && InContinueWrite(s.sel)
    ensures Shape(Apply(s, st))
    ensures if st.Add? && s.senders[st.i].c == s.sel.c then LoopWork(Apply(s, st)) == LoopWork(s) + 3
            else if st.TestLoop? || st.WriteSome? || st.WriteReturned? || st.RecheckQueue? || st.Finish?
            then LoopWork(Apply(s, st)) < LoopWork(s)
            else LoopWork(Apply(s, st)) == LoopWork(s)
  {
    StepShape(s, st);
  }

  /** `run` is what happens when `steps` are taken one after the other. */
  ghost predicate Follows(run: seq<State>, steps: seq<Step>) {
    |run| == |steps| + 1 && forall k :: 0 <= k < |steps| ==> Enabled(run[k], steps[k]) && run[k + 1] == Apply(run[k], steps[k])
  }

  lemma FollowsButLast(run: seq<State>, steps: seq<Step>)
    requires Follows(run, steps) && steps != []
    ensures var n := |steps| - 1;
            && Follows(run[..n + 1], steps[..n]) && run[..n + 1][0] == run[0] && run[..n + 1][n] == run[n]
            && Enabled(run[n], steps[n]) && run[n + 1] == Apply(run[n], steps[n])
  {
    hide Enabled, Apply;
  }

  predicate IsLoopStep(st: Step) {
    st.TestLoop? || st.WriteSome? || st.WriteReturned? || st.RecheckQueue? || st.Finish?
  }

  function LoopSteps(steps: seq<Step>): nat {
    if steps == [] then 0 else LoopSteps(steps[..|steps| - 1]) + (if IsLoopStep(steps[|steps| - 1]) then 1 else 0)
  }

  function Adds(steps: seq<Step>): nat {
    if steps == [] then 0 else Adds(steps[..|steps| - 1]) + (if steps[|steps| - 1].Add? then 1 else 0)
  }

  /** While the selector thread stays inside one continueWrite, it takes at most three steps for
      each message queued at the start or enqueued meanwhile, and six more: however writes are
      cut and senders interleave, the call ends if sends do. */
  lemma {:induction false} ContinueWriteBounded(run: seq<State>, steps: seq<Step>)
    requires Follows(run, steps) && Shape(run[0]) && forall k :: 0 <= k < |steps| ==> InContinueWrite(run[k].sel)
    ensures Shape(run[|steps|])
    ensures LoopSteps(steps) + LoopWork(run[|steps|]) <= LoopWork(run[0]) + 3 * Adds(steps)
    decreases |steps|
  {
    if steps != [] {
      var n := |steps| - 1;
      hide LoopWork, Shape, Enabled, Apply, InContinueWrite, Follows;
      FollowsButLast(run, steps);
      ContinueWriteBounded(run[..n + 1], steps[..n]);
      ContinueWriteEnds(run[n], steps[n]);
    }
  }

  // ---------- a termination that is never carried out ----------

  lemma Take(run: seq<State>, steps: seq<Step>, st: Step) returns (run': seq<State>, steps': seq<Step>)
    requires Follows(run, steps) && Enabled(run[|steps|], st)
    ensures Follows(run', steps') && run'[0] == run[0] && run'[|steps'|] == Apply(run[|steps|], st)
  {
    hide Enabled, Apply;
    run', steps' := run + [Apply(run[|steps|], st)], steps + [st];
  }

  function OneChannel(queue: seq<string>, wire: string, log: string, opWrite: bool, sel: Selector): State {
    State([Chan(queue, wire, log, opWrite, true, false, Past(false, false, false))], [], false, sel, [Idle])
  }

  /** The only sender enqueues `msg` and posts its task. */
  lemma Posted(msg: string, run: seq<State>, steps: seq<Step>) returns (run': seq<State>, steps': seq<Step>)
    requires msg != "" && Follows(run, steps) && run[|steps|] == State([NEW], [], false, Select, [Idle])
    ensures Follows(run', steps') && run'[0] == run[0] && run'[|steps'|] == State([Chan([msg], "", msg, false, true, false, Past(false, false, false))], [0], true, Select, [Idle])
  {
    hide Follows;
    assert "" + msg == msg && [] + [msg] == [msg] && [] + [0] == [0];
    run', steps' := run, steps;
    run', steps' := Take(run', steps', Send(0, 0, msg));
    run', steps' := Take(run', steps', Add(0));
    run', steps' := Take(run', steps', Post(0));
    run', steps' := Take(run', steps', Wake(0));
  }

  /** The selector drains the task. */
  lemma Granted(msg: string, run: seq<State>, steps: seq<Step>) returns (run': seq<State>, steps': seq<Step>)
    requires msg != "" && Follows(run, steps) && run[|steps|] == State([Chan([msg], "", msg, false, true, false, Past(false, false, false))], [0], true, Select, [Idle])
    ensures Follows(run', steps') && run'[0] == run[0] && run'[|steps'|] == OneChannel([msg], "", msg, true, Keys)
  {
    hide Follows;
    run', steps' := run, steps;
    run', steps' := Take(run', steps', SelectReturns);
    run', steps' := Take(run', steps', DrainOne);
    run', steps' := Take(run', steps', DrainDone);
  }

  /** The selector writes everything in one piece. */
  lemma WrittenOut(msg: string, run: seq<State>, steps: seq<Step>) returns (run': seq<State>, steps': seq<Step>)
    requires msg != "" && Follows(run, steps) && run[|steps|] == OneChannel([msg], "", msg, true, Keys)
    ensures Follows(run', steps') && run'[0] == run[0] && run'[|steps'|] == OneChannel([""], msg, msg, true, AfterWrite(0))
  {
    hide Follows;
    assert "" + msg[..|msg|] == msg && msg[|msg|..] == "" && [msg][0 := ""] == [""];
    run', steps' := run, steps;
    run', steps' := Take(run', steps', PickKey(0));
    run', steps' := Take(run', steps', TestLoop);
    run', steps' := Take(run', steps', WriteSome(|msg|));
  }

  /** The empty buffer leaves the queue. */
  lemma Dequeued(msg: string, run: seq<State>, steps: seq<Step>) returns (run': seq<State>, steps': seq<Step>)
    requires msg != "" && Follows(run, steps) && run[|steps|] == OneChannel([""], msg, msg, true, AfterWrite(0))
    ensures Follows(run', steps') && run'[0] == run[0] && run'[|steps'|] == OneChannel([], msg, msg, true, LoopTest(0))
  {
    hide Follows;
    assert [""][1..] == [];
    run', steps' := run, steps;
    run', steps' := Take(run', steps', WriteReturned);
  }

  /** The selector finds no termination, and drops the write interest. */
  lemma InterestDropped(msg: string, run: seq<State>, steps: seq<Step>) returns (run': seq<State>, steps': seq<Step>)
    requires msg != "" && Follows(run, steps) && run[|steps|] == OneChannel([], msg, msg, true, LoopTest(0))
    ensures Follows(run', steps') && run'[0] == run[0] && run'[|steps'|] == OneChannel([], msg, msg, false, Keys)
  {
    hide Follows;
    run', steps' := run, steps;
    run', steps' := Take(run', steps', TestLoop);
    run', steps' := Take(run', steps', RecheckQueue);
    run', steps' := Take(run', steps', Finish);
  }

  /** The failing input: sendError enqueues its ERROR before it sets the flag, and here the flag
      comes after the whole frame has been written.  The channel is to terminate, stays open, and
      nothing is left that could close it. */
  lemma NeverClosed(msg: string) returns (run: seq<State>, steps: seq<Step>)
    requires msg != ""
    ensures Follows(run, steps) && Init(run[0])
    ensures var s := run[|steps|];
            Blocked(s) && s.tasks == [] && |s.chans| == 1 && s.chans[0] == Chan([], msg, msg, false, true, true, Past(false, false, false))
  {
    hide Follows;
    var start := State([NEW], [], false, Select, [Idle]);
    run, steps := [start], [];
    assert Follows(run, steps) by { Alone(start); }
    run, steps := Posted(msg, run, steps);
    run, steps := Granted(msg, run, steps);
    run, steps := WrittenOut(msg, run, steps);
    run, steps := Dequeued(msg, run, steps);
    run, steps := InterestDropped(msg, run, steps);
    run, steps := Take(run, steps, SetTerminate(0));
    run, steps := Take(run, steps, KeysDone);
  }

  lemma Alone(s: State)
    ensures Follows([s], [])
  {
  }
}
