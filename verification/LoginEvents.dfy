/** Who is active, read off the history of a server's run: the logins and the ends of
    connections, in order. */
module LoginEvents {
  import opened StompFrames
  import opened Connections
  import opened StompProtocols
  import opened ServerRuns
  import V = Verdicts

  /** A CONNECT that succeeded, and a log-out or a close. */
  datatype Event = LoggedIn(c: nat, user: string) | Ended(c: nat)

  function EventOf(s: Server, st: Step): seq<Event>
    requires Enabled(s, st)
  {
    match st
    case Handle(c, f, _) => OfVerdict(c, Judge(Before(s, c), f))
    case Close(c) => [Ended(c)]
    case _ => []
  }

  function OfVerdict(c: nat, d: Verdict): seq<Event> {
    match d
    case LogIn(user, _) => [LoggedIn(c, user)]
    case LogOut => [Ended(c)]
    case _ => []
  }

  /** `run` is what happens when `steps` are taken one after the other. */
  ghost predicate Follows(run: seq<Server>, steps: seq<Step>) {
    && |run| == |steps| + 1 && Init(run[0])
    && forall k :: 0 <= k < |steps| ==> Enabled(run[k], steps[k]) && run[k + 1] == Apply(run[k], steps[k])
  }

  ghost function History(run: seq<Server>, steps: seq<Step>): seq<Event>
    requires Follows(run, steps)
    decreases |steps|
  {
    if steps == [] then []
    else
      var n := |steps| - 1;
      FollowsButLast(run, steps);
      History(run[..n + 1], steps[..n]) + EventOf(run[n], steps[n])
  }

  lemma FollowsButLast(run: seq<Server>, steps: seq<Step>)
    requires Follows(run, steps) && steps != []
    ensures var n := |steps| - 1;
            && Follows(run[..n + 1], steps[..n]) && run[..n + 1][n] == run[n]
            && Enabled(run[n], steps[n]) && run[n + 1] == Apply(run[n], steps[n])
  {
    hide Enabled, Apply, Init;
  }

  /** Nobody logged in as `user` before event `i`. */
  ghost predicate FirstLogin(log: seq<Event>, i: nat, c: nat, user: string) {
    i < |log| && log[i] == LoggedIn(c, user) && forall j :: 0 <= j < i && log[j].LoggedIn? ==> log[j].user != user
  }

  /** `c` made the first login ever as `user`, and has neither logged out nor been closed since. */
  ghost predicate Standing(log: seq<Event>, c: nat, user: string) {
    exists i: nat :: FirstLogin(log, i, c, user) && forall j :: i < j < |log| ==> log[j] != Ended(c)
  }

  ghost predicate EverLoggedIn(log: seq<Event>, user: string) {
    exists i :: 0 <= i < |log| && log[i].LoggedIn? && log[i].user == user
  }

  /** The registry's tables, read off the history. */
  ghost predicate Recorded(s: Server, log: seq<Event>) {
    && (forall u :: u in s.reg.users <==> EverLoggedIn(log, u))
    && (forall i :: 0 <= i < |log| && log[i].LoggedIn? ==> log[i].c in s.logins)
    && forall c, u :: (c in s.reg.active && s.reg.active[c] == u) <==> Standing(log, c, u)
  }

  lemma EverSnoc(log: seq<Event>, e: Event, u: string)
    ensures EverLoggedIn(log + [e], u) <==> EverLoggedIn(log, u) || (e.LoggedIn? && e.user == u)
  {
    var log' := log + [e];
    if EverLoggedIn(log, u) {
      var i :| 0 <= i < |log| && log[i].LoggedIn? && log[i].user == u;
      assert log'[i] == log[i];
    }
    if e.LoggedIn? && e.user == u {
      assert log'[|log|] == e;
    }
  }

  lemma FirstSnoc(log: seq<Event>, e: Event, i: nat, c: nat, u: string)
    ensures FirstLogin(log + [e], i, c, u)
       <==> FirstLogin(log, i, c, u) || (i == |log| && e == LoggedIn(c, u) && !EverLoggedIn(log, u))
  {
    var log' := log + [e];
    assert forall j :: 0 <= j < |log| ==> log'[j] == log[j];
  }

  /** An event makes a connection stand as a user only if it is the first login, and ends that
      only if it is the end of the connection. */
  lemma StandingSnoc(log: seq<Event>, e: Event, c: nat, u: string)
    ensures Standing(log + [e], c, u)
       <==> (Standing(log, c, u) && e != Ended(c)) || (e == LoggedIn(c, u) && !EverLoggedIn(log, u))
  {
    var log' := log + [e];
    if Standing(log', c, u) {
      var i: nat :| FirstLogin(log', i, c, u) && forall j :: i < j < |log'| ==> log'[j] != Ended(c);
      FirstSnoc(log, e, i, c, u);
      if i < |log| {
        assert log'[|log|] == e;
        assert forall j :: i < j < |log| ==> log[j] == log'[j];
      }
    }
    if Standing(log, c, u) && e != Ended(c) {
      var i: nat :| FirstLogin(log, i, c, u) && forall j :: i < j < |log| ==> log[j] != Ended(c);
      FirstSnoc(log, e, i, c, u);
      assert forall j :: i < j < |log'| ==> log'[j] == if j < |log| then log[j] else e;
    }
    if e == LoggedIn(c, u) && !EverLoggedIn(log, u) {
      FirstSnoc(log, e, |log|, c, u);
    }
  }

  lemma LoginRecorded(s: Server, s': Server, log: seq<Event>, c: nat, user: string, password: string)
    requires Recorded(s, log) && c !in s.logins && c !in s.reg.active
    requires s'.logins == s.logins[c := Login(user, password)]
    requires s'.reg.users == if user in s.reg.users then s.reg.users else s.reg.users[user := password]
    requires s'.reg.active == if user in s.reg.users then s.reg.active else s.reg.active[c := user]
    ensures Recorded(s', log + [LoggedIn(c, user)])
  {
    var log' := log + [LoggedIn(c, user)];
    forall u ensures u in s'.reg.users <==> EverLoggedIn(log', u) {
      EverSnoc(log, LoggedIn(c, user), u);
    }
    forall d: nat, u ensures (d in s'.reg.active && s'.reg.active[d] == u) <==> Standing(log', d, u) {
      StandingSnoc(log, LoggedIn(c, user), d, u);
      assert (d in s.reg.active && s.reg.active[d] == u) <==> Standing(log, d, u);
    }
    forall i | 0 <= i < |log'| && log'[i].LoggedIn? ensures log'[i].c in s'.logins {
      if i < |log| { assert log[i].c in s.logins; }
    }
  }

  lemma EndRecorded(s: Server, s': Server, log: seq<Event>, c: nat)
    requires Recorded(s, log) && s'.logins == s.logins && s'.reg.users == s.reg.users && s'.reg.active == s.reg.active - {c}
    ensures Recorded(s', log + [Ended(c)])
  {
    var log' := log + [Ended(c)];
    forall u ensures u in s'.reg.users <==> EverLoggedIn(log', u) {
      EverSnoc(log, Ended(c), u);
    }
    forall d: nat, u ensures (d in s'.reg.active && s'.reg.active[d] == u) <==> Standing(log', d, u) {
      StandingSnoc(log, Ended(c), d, u);
      assert (d in s.reg.active && s.reg.active[d] == u) <==> Standing(log, d, u);
    }
    forall i | 0 <= i < |log'| && log'[i].LoggedIn? ensures log'[i].c in s'.logins {
      assert log[i].c in s.logins;
    }
  }

  lemma StepRecorded(s: Server, st: Step, log: seq<Event>)
    requires LoginInv(s) && Recorded(s, log) && Enabled(s, st)
    ensures Recorded(Apply(s, st), log + EventOf(s, st))
  {
    hide Judge, Recorded;
    var s' := Apply(s, st);
    match st {
      case Handle(c, f, shown) =>
        var v, d := Before(s, c), Judge(Before(s, c), f);
        if d.LogIn? {
          LoginEffect(v, c, f, d.user, d.password, shown);
          LoginRecorded(s, s', log, c, d.user, d.password);
        } else {
          NoLoginEffect(v, c, f, d, shown);
          if d.LogOut? {
            EndRecorded(s, s', log, c);
          } else {
            SameRecorded(s, s', log);
          }
        }
      case Close(c) => EndRecorded(s, s', log, c);
      case Accept(_) => SameRecorded(s, s', log);
      case Deliver(_) => SameRecorded(s, s', log);
    }
  }

  lemma SameRecorded(s: Server, s': Server, log: seq<Event>)
    requires Recorded(s, log) && s'.logins == s.logins && s'.reg.users == s.reg.users && s'.reg.active == s.reg.active
    ensures Recorded(s', log + [])
  {
    assert log + [] == log;
  }

  // ---------- runs ----------

  lemma {:induction false} HistoryRecorded(run: seq<Server>, steps: seq<Step>)
    requires Follows(run, steps)
    ensures LoginInv(run[|steps|]) && Recorded(run[|steps|], History(run, steps))
    decreases |steps|
  {
    if steps != [] {
      hide Judge, Act, LoginInv, Recorded, Enabled, Apply, Follows, EventOf;
      var n := |steps| - 1;
      FollowsButLast(run, steps);
      HistoryRecorded(run[..n + 1], steps[..n]);
      StepLogin(run[n], steps[n]);
      StepRecorded(run[n], steps[n], History(run[..n + 1], steps[..n]));
    }
  }

  /** Over every run, a connection is active as a user if and only if it made the user's first
      login and has neither logged out nor been closed since. */
  lemma ActiveIffStanding(run: seq<Server>, steps: seq<Step>, c: nat, user: string)
    requires Follows(run, steps)
    ensures var s := run[|steps|]; (c in s.reg.active && s.reg.active[c] == user) <==> Standing(History(run, steps), c, user)
  {
    hide Follows, Standing, LoginInv, History;
    HistoryRecorded(run, steps);
  }

  ghost predicate Grantable(s: Server, log: seq<Event>, c: nat, user: string, password: string) {
    && c in s.sessions && !s.sessions[c].connected
    && (EverLoggedIn(log, user) ==> user in s.reg.users && s.reg.users[user] == password)
    && forall d :: !Standing(log, d, user)
  }

  /** Exactly when a CONNECT gets a session: the connection has none, the password is the stored
      one if the user has logged in before, and nobody stands as that user.  Once the first
      login's connection has ended, nothing limits the number of sessions of a user. */
  lemma SessionGrantedIff(run: seq<Server>, steps: seq<Step>, c: nat, f: Frame)
    requires Follows(run, steps) && c in run[|steps|].sessions && f.command == "CONNECT" && V.ConnectKeys(f)
    ensures "login" in f.headers && "passcode" in f.headers
    ensures Judge(Before(run[|steps|], c), f) == LogIn(f.headers["login"], f.headers["passcode"])
       <==> Grantable(run[|steps|], History(run, steps), c, f.headers["login"], f.headers["passcode"])
  {
    hide Standing, EverLoggedIn, LoginInv, History, Judge;
    var s, log := run[|steps|], History(run, steps);
    HistoryRecorded(run, steps);
    V.ConnectHeaders(f);
    var user, password := f.headers["login"], f.headers["passcode"];
    V.AcceptedIff(Before(s, c), f, LogIn(user, password));
    NobodyStands(s, log, user);
  }

  lemma NobodyStands(s: Server, log: seq<Event>, user: string)
    requires Recorded(s, log)
    ensures user in s.reg.active.Values <==> exists d :: Standing(log, d, user)
  {
    hide Standing, EverLoggedIn;
    if user in s.reg.active.Values {
      var d :| d in s.reg.active && s.reg.active[d] == user;
      assert Standing(log, d, user);
    }
  }

  // ---------- two sessions of one user ----------

  lemma Start() returns (run: seq<Server>, steps: seq<Step>)
    ensures Follows(run, steps) && steps == [] && run == [Server(Registry({}, map[], map[], map[], 0, map[]), map[], map[], 0)]
  {
    run, steps := [Server(Registry({}, map[], map[], map[], 0, map[]), map[], map[], 0)], [];
  }

  lemma Take(run: seq<Server>, steps: seq<Step>, st: Step) returns (run': seq<Server>, steps': seq<Step>)
    requires Follows(run, steps) && Enabled(run[|steps|], st)
    ensures Follows(run', steps') && steps' == steps + [st] && run'[|steps'|] == Apply(run[|steps|], st)
  {
    hide Enabled, Apply, Init;
    run', steps' := run + [Apply(run[|steps|], st)], steps + [st];
  }

  predicate Connects(f: Frame) {
    f.command == "CONNECT" && V.ConnectKeys(f)
  }

  /** An open connection without a session yet, and a user who is not active and whose stored
      password, if any, is the one in `f`. */
  predicate MayLogIn(s: Server, c: nat, f: Frame) {
    && Connects(f) && "login" in f.headers && "passcode" in f.headers
    && c in s.sessions && !s.sessions[c].connected && f.headers["login"] !in s.reg.active.Values
    && Accepts(s.reg, f.headers["login"], f.headers["passcode"])
  }

  lemma TakeLogin(run: seq<Server>, steps: seq<Step>, c: nat, f: Frame, shown: string)
    returns (run': seq<Server>, steps': seq<Step>)
    requires Follows(run, steps) && MayLogIn(run[|steps|], c, f)
    ensures Follows(run', steps')
    ensures var s, s' := run[|steps|], run'[|steps'|];
            && s'.sessions.Keys == s.sessions.Keys && s'.sessions[c].connected
            && (forall d :: d in s.sessions && d != c ==> s'.sessions[d] == s.sessions[d])
            && s'.reg.registered == s.reg.registered
            && s'.logins == s.logins[c := Login(f.headers["login"], f.headers["passcode"])]
            && f.headers["login"] in s'.reg.users && s'.reg.users[f.headers["login"]] == f.headers["passcode"]
            && s'.reg.active == if f.headers["login"] in s.reg.users then s.reg.active else s.reg.active[c := f.headers["login"]]
  {
    hide Judge;
    var s := run[|steps|];
    var user, password := f.headers["login"], f.headers["passcode"];
    V.AcceptedIff(Before(s, c), f, LogIn(user, password));
    LoginEffect(Before(s, c), c, f, user, password, shown);
    run', steps' := Take(run, steps, Handle(c, f, shown));
  }

  lemma TakeLogOut(run: seq<Server>, steps: seq<Step>, c: nat, f: Frame, shown: string)
    returns (run': seq<Server>, steps': seq<Step>)
    requires Follows(run, steps) && c in run[|steps|].sessions && run[|steps|].sessions[c].connected && f.command == "DISCONNECT"
    ensures Follows(run', steps')
    ensures var s, s' := run[|steps|], run'[|steps'|];
            && s'.sessions.Keys == s.sessions.Keys && (forall d :: d in s.sessions && d != c ==> s'.sessions[d] == s.sessions[d])
            && s'.reg.registered == s.reg.registered - {c} && s'.reg.active == s.reg.active - {c}
            && s'.logins == s.logins && s'.reg.users == s.reg.users
  {
    hide Judge;
    var s := run[|steps|];
    V.AcceptedIff(Before(s, c), f, LogOut);
    NoLoginEffect(Before(s, c), c, f, LogOut, shown);
    run', steps' := Take(run, steps, Handle(c, f, shown));
  }

  /** The failing input for "one session per user": after the user's first session has logged
      out, two more connections log in and hold a session at the same time. */
  lemma TwoSessionsOfOneUser(f: Frame, g: Frame, shown: string) returns (run: seq<Server>, steps: seq<Step>)
    requires Connects(f) && g.command == "DISCONNECT"
    ensures Follows(run, steps)
    ensures var s := run[|steps|];
            && {2, 3} <= s.reg.registered && {2, 3} <= s.sessions.Keys && s.sessions[2].connected && s.sessions[3].connected
            && {2, 3} <= s.logins.Keys && s.logins[2].user == s.logins[3].user
  {
    hide Follows, Judge, Act;
    run, steps := ThreeAccepted();
    V.ConnectHeaders(f);
    run, steps := TakeLogin(run, steps, 1, f, shown);
    run, steps := TakeLogOut(run, steps, 1, g, shown);
    run, steps := TakeLogin(run, steps, 2, f, shown);
    run, steps := TakeLogin(run, steps, 3, f, shown);
  }

  lemma ThreeAccepted() returns (run: seq<Server>, steps: seq<Step>)
    ensures Follows(run, steps)
    ensures var s := run[|steps|];
            && s.sessions.Keys == {1, 2, 3} && (forall c :: c in s.sessions ==> !s.sessions[c].connected)
            && s.reg.registered == {1, 2, 3} && s.reg.users == map[] && s.reg.active == map[]
  {
    hide Judge, Act;
    run, steps := Start();
    run, steps := Take(run, steps, Accept(1));
    run, steps := Take(run, steps, Accept(2));
    run, steps := Take(run, steps, Accept(3));
  }
}
