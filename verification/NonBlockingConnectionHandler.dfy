/** The reactor's shared task queue (Reactor.java) and a connection's write side and buffer pool
    (NonBlockingConnectionHandler.java) as classes. */
module NonBlockingHandlers {
  import opened StompFrames
  import opened WritePath
  import ActorPool

  datatype InterestTask = InterestTask(chan: nat, write: bool)

  /** The write interest after running `tasks` in order: the last task of a channel wins. */
  function RunTasks(opWrite: map<nat, bool>, tasks: seq<InterestTask>): map<nat, bool> {
    if tasks == [] then opWrite
    else RunTasks(opWrite, tasks[..|tasks| - 1])[tasks[|tasks| - 1].chan := tasks[|tasks| - 1].write]
  }

  class Reactor {
    var opWrite: map<nat, bool>
    var selectorTasks: seq<InterestTask>
    var wakeup: bool

    constructor ()
      ensures opWrite == map[] && selectorTasks == [] && !wakeup
    {
      opWrite, selectorTasks, wakeup := map[], [], false;
    }

    method UpdateInterestedOps(chan: nat, write: bool, onSelectorThread: bool)
      modifies this
      ensures onSelectorThread ==> opWrite == old(opWrite)[chan := write] && selectorTasks == old(selectorTasks) && wakeup == old(wakeup)
      ensures !onSelectorThread ==> opWrite == old(opWrite) && selectorTasks == old(selectorTasks) + [InterestTask(chan, write)] && wakeup
    {
      if onSelectorThread {
        opWrite := opWrite[chan := write];
      } else {
        selectorTasks := selectorTasks + [InterestTask(chan, write)];
        wakeup := true;
      }
    }

    method RunSelectionThreadTasks()
      modifies this
      ensures selectorTasks == [] && wakeup == old(wakeup)
      ensures opWrite == RunTasks(old(opWrite), old(selectorTasks))
    {
      ghost var done := 0;
      while selectorTasks != []
        invariant done <= |old(selectorTasks)| && selectorTasks == old(selectorTasks)[done..]
        invariant opWrite == RunTasks(old(opWrite), old(selectorTasks)[..done]) && wakeup == old(wakeup)
        decreases |selectorTasks|
      {
        var task := selectorTasks[0];
        assert old(selectorTasks)[..done + 1] == old(selectorTasks)[..done] + [task];
        selectorTasks := selectorTasks[1..];
        opWrite := opWrite[task.chan := task.write];
        done := done + 1;
      }
      assert old(selectorTasks)[..done] == old(selectorTasks);
    }
  }

  ghost predicate Mentions(tasks: seq<InterestTask>, c: nat) {
    exists i :: 0 <= i < |tasks| && tasks[i].chan == c
  }

  /** Senders only post tasks that ask for write interest; after running them, exactly the
      channels mentioned have gained it and no other channel's interest has moved. */
  lemma {:induction false} TasksGrantWrite(opWrite: map<nat, bool>, tasks: seq<InterestTask>, c: nat)
    requires forall i :: 0 <= i < |tasks| ==> tasks[i].write
    ensures var r := RunTasks(opWrite, tasks);
            if Mentions(tasks, c) then c in r && r[c]
            else (c in r <==> c in opWrite) && (c in opWrite ==> r[c] == opWrite[c])
  {
    if tasks != [] {
      var n := |tasks| - 1;
      TasksGrantWrite(opWrite, tasks[..n], c);
      if tasks[n].chan != c && Mentions(tasks, c) {
        var i :| 0 <= i < |tasks| && tasks[i].chan == c;
        assert tasks[..n][i].chan == c;
      }
    }
  }

  /** Of several tasks for one channel the last one decides. */
  lemma {:induction false} LastTaskDecides(opWrite: map<nat, bool>, tasks: seq<InterestTask>, i: nat)
    requires i < |tasks| && forall j :: i < j < |tasks| ==> tasks[j].chan != tasks[i].chan
    ensures tasks[i].chan in RunTasks(opWrite, tasks) && RunTasks(opWrite, tasks)[tasks[i].chan] == tasks[i].write
  {
    var n := |tasks| - 1;
    if i < n {
      LastTaskDecides(opWrite, tasks[..n], i);
      assert tasks[n].chan != tasks[i].chan;
    }
  }

  /** The direct buffers shared by all connections. */
  class BufferPool {
    var buffers: seq<array<char>>

    ghost predicate Valid()
      reads this
    {
      && (forall b :: b in buffers ==> b.Length == ActorPool.BUFFER_SIZE)
      && forall i, j :: 0 <= i < j < |buffers| ==> buffers[i] != buffers[j]
    }

    constructor ()
      ensures Valid() && buffers == []
    {
      buffers := [];
    }

    /** The buffer handed out is no longer in the pool: the oldest one, or a new one. */
    method LeaseBuffer() returns (buff: array<char>)
      requires Valid()
      modifies this
      ensures Valid() && buff.Length == ActorPool.BUFFER_SIZE && buff !in buffers
      ensures if old(buffers) == [] then buffers == [] && fresh(buff) else [buff] + buffers == old(buffers)
    {
      if buffers == [] {
        buff := new char[ActorPool.BUFFER_SIZE];
      } else {
        buff := buffers[0];
        buffers := buffers[1..];
      }
    }

    /** The pool stays free of duplicates exactly when the buffer was not in it already. */
    method ReleaseBuffer(buff: array<char>)
      requires Valid() && buff.Length == ActorPool.BUFFER_SIZE
      modifies this
      ensures buffers == old(buffers) + [buff]
      ensures Valid() <==> buff !in old(buffers)
    {
      buffers := buffers + [buff];
      var n := |buffers| - 1;
      if buff in old(buffers) {
        ghost var i :| 0 <= i < n && old(buffers)[i] == buff;
        assert buffers[i] == buffers[n];
      }
    }
  }

  class NonBlockingConnectionHandler {
    const chan: nat
    const reactor: Reactor
    var writeQueue: seq<string>
    var open: bool
    /** protocol.shouldTerminate(). */
    var shouldTerminate: bool
    /** Everything enqueued, and everything the channel has accepted. */
    ghost var log: string
    ghost var wire: string
    /** Whether the read side ended the connection, and what was still to write when
        shouldTerminate was set. */
    ghost var past: Past

    ghost function View(): Chan
      reads this, reactor
    {
      Chan(writeQueue, wire, log, chan in reactor.opWrite && reactor.opWrite[chan], open, shouldTerminate, past)
    }

    constructor (chan: nat, reactor: Reactor)
      ensures this.chan == chan && this.reactor == reactor
      ensures writeQueue == [] && open && !shouldTerminate && log == "" && wire == "" && past == Past(false, false, false) && Conserved(View())
    {
      this.chan, this.reactor := chan, reactor;
      writeQueue, open, shouldTerminate, log, wire, past := [], true, false, "", "", Past(false, false, false);
    }

    /** Called on a pool thread: the encoded message goes to the end of the queue, and a task
        that will set the write interest is posted with a wakeup. */
    method Send(msg: Frame)
      requires Conserved(View())
      modifies this, reactor
      ensures Conserved(View()) && open == old(open) && wire == old(wire) && shouldTerminate == old(shouldTerminate)
      ensures past == if open then Enqueued(old(past), shouldTerminate) else old(past)
      ensures !open ==> writeQueue == old(writeQueue) && reactor.selectorTasks == old(reactor.selectorTasks)
      ensures open ==>
                && |writeQueue| == |old(writeQueue)| + 1 && writeQueue[..|old(writeQueue)|] == old(writeQueue)
                && IsServerText(writeQueue[|old(writeQueue)|], msg)
                && reactor.selectorTasks == old(reactor.selectorTasks) + [InterestTask(chan, true)] && reactor.wakeup
    {
      if !open {
        return;
      }
      hide Conserved, IsServerText;
      var encoded := ToString(msg);
      AddConserves(View(), encoded);
      writeQueue := writeQueue + [encoded];
      log := log + encoded;
      past := Enqueued(past, shouldTerminate);
      reactor.UpdateInterestedOps(chan, true, false);
    }

    /** Called on the selector thread.  However much each channel write accepts, no byte is lost
        or reordered; the call returns with a rest at the head of the queue and the interest
        untouched, or with everything written and the interest dropped or the channel closed. */
    method ContinueWrite()
      requires Conserved(View()) && open
      modifies this, reactor
      ensures Conserved(View()) && log == old(log) && old(wire) <= wire && past == old(past)
      ensures reactor.selectorTasks == old(reactor.selectorTasks)
      ensures shouldTerminate == old(shouldTerminate)
      ensures writeQueue != [] ==> open && reactor.opWrite == old(reactor.opWrite)
      ensures writeQueue == [] ==> wire == log
      ensures writeQueue == [] && !shouldTerminate ==> open && reactor.opWrite == old(reactor.opWrite)[chan := false]
      ensures writeQueue == [] && shouldTerminate ==> !open && reactor.opWrite == old(reactor.opWrite)
    {
      while writeQueue != []
        invariant Conserved(View()) && log == old(log) && old(wire) <= wire && open
        invariant reactor.selectorTasks == old(reactor.selectorTasks) && reactor.opWrite == old(reactor.opWrite)
        invariant shouldTerminate == old(shouldTerminate) && past == old(past)
        decreases |writeQueue|
      {
        var top := writeQueue[0];
        var k: nat :| k <= |top|;
        WriteConserves(View(), k);
        wire := wire + top[..k];
        if k < |top| {
          writeQueue := writeQueue[0 := top[k..]];
          return;
        }
        assert writeQueue[0 := top[k..]][1..] == writeQueue[1..] && top[k..] == "";
        writeQueue := writeQueue[1..];
      }
      if shouldTerminate {
        open := false;
      } else {
        reactor.UpdateInterestedOps(chan, false, true);
      }
    }
  }
}
