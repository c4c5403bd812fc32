/** ActorThreadPool.java as a class.  Its methods run inside the actor's monitor, so each is one
    atomic step of `ActorPool`; `PoolRefinement` shows that the locks make this true. */
module ActorThreadPools {
  import opened ActorPool

  function QueuesOf(acts: map<nat, seq<Task>>, n: nat): (r: seq<seq<Task>>)
    ensures |r| == n && forall a :: 0 <= a < n ==> r[a] == if a in acts then acts[a] else []
  {
    seq(n, a requires 0 <= a < n => if a in acts then acts[a] else [])
  }

  class ActorThreadPool {
    var acts: map<nat, seq<Task>>
    var playingNow: set<nat>
    var threads: seq<Job>

    constructor ()
      ensures acts == map[] && playingNow == {} && threads == []
    {
      acts, playingNow, threads := map[], {}, [];
    }

    /** The pool as seen by actors 0..n-1; an actor without a queue object has an empty queue. */
    ghost function View(n: nat): Pool
      reads this
    {
      Pool(QueuesOf(acts, n), playingNow, threads)
    }

    method Submit(act: nat, r: Task, ghost n: nat)
      requires act < n
      modifies this
      ensures View(n) == SubmitPool(old(View(n)), act, r)
      ensures forall a :: a in old(acts) ==> a in acts
    {
      if act !in playingNow {
        playingNow := playingNow + {act};
        Execute(r, act);
      } else {
        var pending := PendingRunnablesOf(act);
        acts := acts[act := pending + [r]];
      }
      assert View(n).pending == SubmitPool(old(View(n)), act, r).pending;
    }

    /** Creates the queue on first use and never replaces one. */
    method PendingRunnablesOf(act: nat) returns (pendingRunnables: seq<Task>)
      modifies `acts
      ensures act in acts && pendingRunnables == acts[act]
      ensures acts == if act in old(acts) then old(acts) else old(acts)[act := []]
    {
      if act !in acts {
        acts := acts[act := []];
      }
      return acts[act];
    }

    method Execute(r: Task, act: nat)
      modifies `threads
      ensures threads == old(threads) + [Job(act, r)]
    {
      threads := threads + [Job(act, r)];
    }

    method Complete(act: nat, ghost n: nat)
      requires act < n
      modifies this
      ensures View(n) == CompletePool(old(View(n)), act)
      ensures act in acts
    {
      var pending := PendingRunnablesOf(act);
      if pending == [] {
        playingNow := playingNow - {act};
      } else {
        acts := acts[act := pending[1..]];
        Execute(pending[0], act);
      }
      assert View(n).pending == CompletePool(old(View(n)), act).pending;
    }
  }
}
