/** The server as a whole: any number of connections, each processing any frames, in any order.
    Login history, agreement of the two subscription indexes, and fan-out. */
module ServerRuns {
  import opened Text
  import opened StompFrames
  import opened Connections
  import opened StompProtocols

  datatype Login = Login(user: string, password: string)

  /** `logins` records the successful CONNECTs by connection (a second one would be rejected)
      and `sent` counts the accepted SENDs. */
  datatype Server = Server(reg: Registry, sessions: map<nat, Session>, logins: map<nat, Login>, sent: nat)

  /** `Close` may come at any time, and frames of a closed connection may still be processed. */
  datatype Step =
    | Accept(c: nat)
    | Handle(c: nat, f: Frame, shown: string)
    | Close(c: nat)
    | Deliver(c: nat)

  ghost predicate Init(s: Server) {
    s == Server(Registry({}, map[], map[], map[], 0, map[]), map[], map[], 0)
  }

  predicate Enabled(s: Server, st: Step) {
    match st
    case Accept(c) => c !in s.sessions
    case Handle(c, f, shown) => c in s.sessions
    case Close(c) => c in s.sessions
    case Deliver(c) => Out(s.reg, c) != []
  }

  function Before(s: Server, c: nat): Served
    requires c in s.sessions
  {
    Served(s.reg, s.sessions[c])
  }

  /** The server after connection `c` has processed a frame with verdict `d`. */
  function After(s: Server, c: nat, f: Frame, d: Verdict, shown: string): Server
    requires c in s.sessions && Justified(Before(s, c), d)
  {
    var v := Act(Before(s, c), c, f, d, shown);
    Server(v.reg, s.sessions[c := v.session],
           if d.LogIn? then s.logins[c := Login(d.user, d.password)] else s.logins,
           if d.Relay? then s.sent + 1 else s.sent)
  }

  function Apply(s: Server, st: Step): Server
    requires Enabled(s, st)
  {
    match st
    case Accept(c) => s.(reg := Register(s.reg, c), sessions := s.sessions[c := Session(false, false, map[])])
    case Handle(c, f, shown) => After(s, c, f, Judge(Before(s, c), f), shown)
    case Close(c) => s.(reg := Disconnect(s.reg, c))
    case Deliver(c) => s.(reg := s.reg.(outbox := s.reg.outbox[c := Out(s.reg, c)[1..]]))
  }

  ghost predicate Next(s: Server, s': Server) {
    exists st :: Enabled(s, st) && s' == Apply(s, st)
  }

  // ---------- login history ----------

  ghost predicate LoginInv(s: Server) {
    && (forall c :: c in s.logins <==> c in s.sessions && s.sessions[c].connected)
    && (forall c :: c in s.logins ==>
          s.logins[c].user in s.reg.users && s.reg.users[s.logins[c].user] == s.logins[c].password)
    && (forall c :: c in s.reg.active ==> c in s.logins && s.logins[c].user == s.reg.active[c])
    && (forall c, d :: c in s.reg.active && d in s.logins && s.logins[d].user == s.reg.active[c] ==> d == c)
  }

  lemma LoginEffect(v: Served, c: nat, f: Frame, user: string, password: string, shown: string)
    requires Justified(v, LogIn(user, password))
    ensures var v' := Act(v, c, f, LogIn(user, password), shown);
            && v'.session.connected
            && v'.reg.users == (if user in v.reg.users then v.reg.users else v.reg.users[user := password])
            && v'.reg.active == (if user in v.reg.users then v.reg.active else v.reg.active[c := user])
  {
  }

  lemma LoginSuccess(s: Server, s': Server, c: nat, user: string, password: string)
    requires LoginInv(s) && c in s.sessions && Justified(Before(s, c), LogIn(user, password))
    requires c in s'.sessions && s'.sessions[c].connected && s'.sessions == s.sessions[c := s'.sessions[c]]
    requires s'.logins == s.logins[c := Login(user, password)]
    requires s'.reg.users == if user in s.reg.users then s.reg.users else s.reg.users[user := password]
    requires s'.reg.active == if user in s.reg.users then s.reg.active else s.reg.active[c := user]
    ensures LoginInv(s')
  {
    assert c !in s.logins && c !in s.reg.active;
  }

  lemma NoLoginEffect(v: Served, c: nat, f: Frame, d: Verdict, shown: string)
    requires Justified(v, d) && !d.LogIn?
    ensures var v' := Act(v, c, f, d, shown);
            && v'.reg.users == v.reg.users && v'.session.connected == v.session.connected
            && v'.reg.active == if d.LogOut? then v.reg.active - {c} else v.reg.active
  {
  }

  lemma LoginOther(s: Server, s': Server)
    requires LoginInv(s) && s'.logins == s.logins && s'.reg.users == s.reg.users && s'.sessions.Keys == s.sessions.Keys
    requires forall c :: c in s.sessions ==> s'.sessions[c].connected == s.sessions[c].connected
    requires forall c :: c in s'.reg.active ==> c in s.reg.active && s'.reg.active[c] == s.reg.active[c]
    ensures LoginInv(s')
  {
  }

  lemma StepLogin(s: Server, st: Step)
    requires LoginInv(s) && Enabled(s, st)
    ensures LoginInv(Apply(s, st))
  {
    hide Judge;
    match st {
      case Handle(c, f, shown) =>
        var d := Judge(Before(s, c), f);
        if d.LogIn? {
          LoginEffect(Before(s, c), c, f, d.user, d.password, shown);
          LoginSuccess(s, Apply(s, st), c, d.user, d.password);
        } else {
          NoLoginEffect(Before(s, c), c, f, d, shown);
          LoginOther(s, Apply(s, st));
        }
      case Close(c) =>
        assert Apply(s, st).reg.active == s.reg.active - {c};
      case _ =>
    }
  }

  /** Nothing stored is changed or forgotten: neither a password nor the record of a login. */
  ghost predicate Remembers(s: Server, s': Server) {
    && (forall u :: u in s.reg.users ==> u in s'.reg.users && s'.reg.users[u] == s.reg.users[u])
    && forall c :: c in s.logins ==> c in s'.logins && s'.logins[c] == s.logins[c]
  }

  lemma StepRemembers(s: Server, st: Step)
    requires LoginInv(s) && Enabled(s, st)
    ensures Remembers(s, Apply(s, st))
  {
    hide Judge;
    if st.Handle? {
      var v, d := Before(s, st.c), Judge(Before(s, st.c), st.f);
      if d.LogIn? {
        LoginEffect(v, st.c, st.f, d.user, d.password, st.shown);
      } else {
        NoLoginEffect(v, st.c, st.f, d, st.shown);
      }
    }
  }

  // ---------- the two subscription indexes ----------

  /** The shared index and the session's own index list the same subscriptions. */
  ghost predicate Agree(reg: Registry, c: nat, subs: map<int, string>) {
    forall t, id :: Has(reg, t, c, id) <==> id in subs && subs[id] == t
  }

  /** The id is not used for another topic, and the topic has no other id. */
  predicate Fresh(subs: map<int, string>, topic: string, id: int) {
    (id in subs ==> subs[id] == topic) && forall k :: k in subs && subs[k] == topic ==> k == id
  }

  /** An accepted SUBSCRIBE keeps the indexes in agreement if and only if its id and its topic
      are fresh: reusing an id, or subscribing twice to a topic, splits them. */
  lemma SubscribeAgreesIff(v: Served, c: nat, f: Frame, t: string, id: int, shown: string)
    requires v.session.connected && Agree(v.reg, c, v.session.subs)
    ensures var v' := Act(v, c, f, Subscribe(t, id), shown);
            Agree(v'.reg, c, v'.session.subs) <==> Fresh(v.session.subs, t, id)
  {
    var v' := Act(v, c, f, Subscribe(t, id), shown);
    var subs := v.session.subs;
    assert v'.reg.topics == AddSubscription(v.reg, t, c, id).topics;
    forall u, k ensures Has(v'.reg, u, c, k) <==> if u == t then k == id else Has(v.reg, u, c, k) {
    }
    if Fresh(subs, t, id) {
      forall u, k ensures Has(v'.reg, u, c, k) <==> k in v'.session.subs && v'.session.subs[k] == u {
        assert Has(v.reg, u, c, k) <==> k in subs && subs[k] == u;
      }
    } else if id in subs && subs[id] != t {
      assert Has(v.reg, subs[id], c, id);
      assert Has(v'.reg, subs[id], c, id) && v'.session.subs[id] == t;
    } else {
      var k :| k in subs && subs[k] == t && k != id;
      assert v'.session.subs[k] == t && !Has(v'.reg, t, c, k);
    }
  }

  lemma HasAfterAddOther(r: Registry, topic: string, c: nat, id: int, u: string)
    requires u != topic
    ensures forall k :: Has(AddSubscription(r, topic, c, id), u, c, k) <==> Has(r, u, c, k)
  {
  }

  lemma HasAfterRemove(r: Registry, topic: string, c: nat, u: string, d: nat, k: int)
    ensures Has(RemoveSubscription(r, topic, c), u, d, k) <==> Has(r, u, d, k) && !(u == topic && d == c)
  {
    FlatRemove(r, topic, c);
    FlatHas(r, u, d, k);
    FlatHas(RemoveSubscription(r, topic, c), u, d, k);
  }

  lemma UnsubscribeAgrees(v: Served, c: nat, f: Frame, id: int, shown: string)
    requires v.session.connected && id in v.session.subs && Agree(v.reg, c, v.session.subs)
    ensures var v' := Act(v, c, f, Unsubscribe(id), shown); Agree(v'.reg, c, v'.session.subs)
  {
    var v' := Act(v, c, f, Unsubscribe(id), shown);
    var topic := v.session.subs[id];
    assert v'.reg.topics == RemoveSubscription(v.reg, topic, c).topics;
    assert Has(v.reg, topic, c, id);
    forall u, k ensures Has(v'.reg, u, c, k) <==> k in v'.session.subs && v'.session.subs[k] == u {
      HasAfterRemove(v.reg, topic, c, u, c, k);
      assert Has(v.reg, u, c, k) <==> k in v.session.subs && v.session.subs[k] == u;
    }
  }

  lemma LogOutEntries(v: Served, c: nat, u: string, d: nat, k: int)
    ensures Has(Disconnect(RemoveSubscriptions(v.reg, v.session.subs.Values, c), c), u, d, k)
       <==> Has(v.reg, u, d, k) && d != c
  {
    if u in v.reg.topics && d in v.reg.topics[u] && d != c {
      assert d in v.reg.topics[u] - {c};
    }
  }

  /** Whatever connection `c` sends, the entries of every other connection stay. */
  lemma OthersKeepEntries(v: Served, c: nat, f: Frame, a: Verdict, shown: string, d: nat, u: string, k: int)
    requires d != c && Justified(v, a)
    ensures Has(Act(v, c, f, a, shown).reg, u, d, k) <==> Has(v.reg, u, d, k)
  {
    var v' := Act(v, c, f, a, shown);
    match a {
      case Subscribe(t, id) => assert v'.reg.topics == AddSubscription(v.reg, t, c, id).topics;
      case Unsubscribe(id) =>
        assert v'.reg.topics == RemoveSubscription(v.reg, v.session.subs[id], c).topics;
        HasAfterRemove(v.reg, v.session.subs[id], c, u, d, k);
      case LogOut =>
        assert v'.reg.topics == Disconnect(RemoveSubscriptions(v.reg, v.session.subs.Values, c), c).topics;
        LogOutEntries(v, c, u, d, k);
      case _ => assert v'.reg.topics == v.reg.topics;
    }
  }

  lemma SameEntries(r: Registry, r': Registry, c: nat, subs: map<int, string>)
    requires r'.topics == r.topics && Agree(r, c, subs)
    ensures Agree(r', c, subs)
  {
    forall u, k ensures Has(r', u, c, k) <==> k in subs && subs[k] == u {
      assert Has(r, u, c, k) <==> k in subs && subs[k] == u;
    }
  }

  /** The sender's own entries, for everything except SUBSCRIBE. */
  lemma OwnAgreement(v: Served, c: nat, f: Frame, a: Verdict, shown: string)
    requires Justified(v, a) && Agree(v.reg, c, v.session.subs) && !a.Subscribe?
    ensures var v' := Act(v, c, f, a, shown); Agree(v'.reg, c, v'.session.subs)
  {
    var v' := Act(v, c, f, a, shown);
    match a {
      case Unsubscribe(id) => UnsubscribeAgrees(v, c, f, id, shown);
      case LogOut =>
        assert v'.reg.topics == Disconnect(RemoveSubscriptions(v.reg, v.session.subs.Values, c), c).topics;
        forall u, k ensures !Has(v'.reg, u, c, k) {
          LogOutEntries(v, c, u, c, k);
        }
      case Subscribe(_, _) =>
      case _ =>
        SameEntries(v.reg, v'.reg, c, v.session.subs);
    }
  }

  /** Every registered connection's indexes agree, and no unknown connection has entries. */
  ghost predicate IndexInv(s: Server) {
    && (forall c :: c in s.reg.registered ==> c in s.sessions && Agree(s.reg, c, s.sessions[c].subs))
    && (forall t, c, id :: Has(s.reg, t, c, id) ==> c in s.sessions)
  }

  /** The discipline a client must keep: every accepted SUBSCRIBE is fresh. */
  predicate FreshVerdict(subs: map<int, string>, d: Verdict) {
    d.Subscribe? ==> Fresh(subs, d.topic, d.id)
  }

  predicate Disciplined(s: Server, st: Step) {
    st.Handle? && st.c in s.sessions ==> FreshVerdict(s.sessions[st.c].subs, Judge(Before(s, st.c), st.f))
  }

  lemma HandleIndex(s: Server, c: nat, f: Frame, a: Verdict, shown: string)
    requires IndexInv(s) && c in s.sessions && Justified(Before(s, c), a) && FreshVerdict(s.sessions[c].subs, a)
    ensures IndexInv(After(s, c, f, a, shown))
  {
    hide Judge;
    var s' := After(s, c, f, a, shown);
    var v := Before(s, c);
    assert s'.reg.registered == if a.LogOut? then s.reg.registered - {c} else s.reg.registered;
    forall d | d in s'.reg.registered ensures d in s'.sessions && Agree(s'.reg, d, s'.sessions[d].subs) {
      assert d in s.reg.registered;
      if d == c {
        if a.Subscribe? { SubscribeAgreesIff(v, c, f, a.topic, a.id, shown); } else { OwnAgreement(v, c, f, a, shown); }
      } else {
        forall u, k ensures Has(s'.reg, u, d, k) <==> k in s'.sessions[d].subs && s'.sessions[d].subs[k] == u {
          OthersKeepEntries(v, c, f, a, shown, d, u, k);
          assert Has(s.reg, u, d, k) <==> k in s.sessions[d].subs && s.sessions[d].subs[k] == u;
        }
      }
    }
    forall t, d: nat, id | Has(s'.reg, t, d, id) ensures d in s'.sessions {
      if d != c { OthersKeepEntries(v, c, f, a, shown, d, t, id); }
    }
  }

  lemma StepIndex(s: Server, st: Step)
    requires IndexInv(s) && Enabled(s, st) && Disciplined(s, st)
    ensures IndexInv(Apply(s, st))
  {
    hide Judge;
    var s' := Apply(s, st);
    match st {
      case Handle(c, f, shown) => HandleIndex(s, c, f, Judge(Before(s, c), f), shown);
      case Close(c) =>
        forall t, d: nat, id ensures Has(s'.reg, t, d, id) <==> Has(s.reg, t, d, id) && d != c {
          if t in s.reg.topics && d in s.reg.topics[t] && d != c { assert d in s.reg.topics[t] - {c}; }
        }
        forall d | d in s'.reg.registered ensures Agree(s'.reg, d, s'.sessions[d].subs) {
          assert Agree(s.reg, d, s.sessions[d].subs);
        }
      case _ =>
        assert forall t, d: nat, id :: Has(s'.reg, t, d, id) <==> Has(s.reg, t, d, id);
        forall d | d in s'.reg.registered ensures d in s'.sessions && Agree(s'.reg, d, s'.sessions[d].subs) {
          if d in s.reg.registered { assert Agree(s.reg, d, s.sessions[d].subs); }
        }
    }
  }

  // ---------- fan-out ----------

  /** The id of the n-th accepted SEND: an int counter that wraps. */
  function MessageId(n: nat): (id: int)
    ensures IsInt32(id)
  {
    (n + 0x8000_0000) % 0x1_0000_0000 - 0x8000_0000
  }

  /** A MESSAGE for one subscription, header by header. */
  predicate Carries(m: Frame, topic: string, subscription: int, messageId: int, body: string) {
    && m.command == "MESSAGE" && m.body == body
    && m.headers.Keys == {"destination", "subscription", "message-id"}
    && m.headers["destination"] == topic
    && m.headers["subscription"] == Decimal(subscription)
    && m.headers["message-id"] == Decimal(messageId)
  }

  /** What a connection was sent is `m` and nothing else. */
  predicate Gains(before: seq<Frame>, after: seq<Frame>, m: Frame) {
    after == before + [m]
  }

  /** An accepted SEND gives every registered subscriber exactly one MESSAGE, which names the
      topic, the subscriber's own subscription and the new message id and holds the sent body,
      and gives nobody anything else. */
  lemma FanOutExact(v: Served, c: nat, f: Frame, t: string, shown: string, d: nat)
    requires Justified(v, Relay(t))
    ensures var v' := Act(v, c, f, Relay(t), shown);
            && v'.session == v.session && v'.reg.counter == NextInt(v.reg.counter)
            && v'.reg.topics == v.reg.topics
            && (forall id :: Has(v.reg, t, d, id) && d in v.reg.registered ==>
                  exists m: Frame :: Gains(Out(v.reg, d), Out(v'.reg, d), m) && Carries(m, t, id, v'.reg.counter, f.body))
            && ((d !in v.reg.registered || forall id :: !Has(v.reg, t, d, id)) ==> Out(v'.reg, d) == Out(v.reg, d))
  {
    var r := v.reg.(counter := NextInt(v.reg.counter));
    FanOutAt(r, Subscribers(r, t), d, t, r.counter, f.body);
    if t in v.reg.topics && d in v.reg.topics[t] {
      assert Has(v.reg, t, d, v.reg.topics[t][d]);
      var m := MessageFrame(t, v.reg.topics[t][d], r.counter, f.body);
      assert Carries(m, t, v.reg.topics[t][d], r.counter, f.body);
      assert d in v.reg.registered ==> Gains(Out(v.reg, d), Out(Act(v, c, f, Relay(t), shown).reg, d), m);
    }
  }

  /** A registered sender whose indexes agree receives its own message. */
  lemma SenderIncluded(v: Served, c: nat, f: Frame, t: string, shown: string)
    requires Justified(v, Relay(t)) && c in v.reg.registered && Agree(v.reg, c, v.session.subs)
    ensures var v' := Act(v, c, f, Relay(t), shown);
            exists id, m: Frame :: id in v.session.subs && v.session.subs[id] == t
                                && Gains(Out(v.reg, c), Out(v'.reg, c), m) && Carries(m, t, id, v'.reg.counter, f.body)
  {
    var id :| id in v.session.subs && v.session.subs[id] == t;
    assert Has(v.reg, t, c, id);
    FanOutExact(v, c, f, t, shown, c);
  }

  lemma HandleCounter(s: Server, c: nat, f: Frame, d: Verdict, shown: string)
    requires s.reg.counter == MessageId(s.sent) && c in s.sessions && Justified(Before(s, c), d)
    ensures var s' := After(s, c, f, d, shown); s'.reg.counter == MessageId(s'.sent)
  {
    NextMessageId(s.sent);
    assert After(s, c, f, d, shown).reg.counter == if d.Relay? then NextInt(s.reg.counter) else s.reg.counter;
  }

  lemma StepCounter(s: Server, st: Step)
    requires s.reg.counter == MessageId(s.sent) && Enabled(s, st)
    ensures Apply(s, st).reg.counter == MessageId(Apply(s, st).sent)
  {
    hide Judge;
    if st.Handle? {
      HandleCounter(s, st.c, st.f, Judge(Before(s, st.c), st.f), st.shown);
    }
  }

  lemma NextMessageId(n: nat)
    ensures MessageId(n + 1) == NextInt(MessageId(n))
  {
  }

  /** Message ids grow strictly up to 2^31 - 1 messages and are distinct for any 2^32 in a row. */
  lemma MessageIdsDistinct(m: nat, n: nat)
    requires m < n < m + 0x1_0000_0000
    ensures MessageId(m) != MessageId(n)
    ensures n < 0x8000_0000 ==> MessageId(m) < MessageId(n)
  {
  }

  // ---------- runs ----------

  ghost predicate IsRun(run: seq<Server>) {
    && run != [] && Init(run[0])
    && forall i :: 0 <= i < |run| - 1 ==> Next(run[i], run[i + 1])
  }

  lemma {:induction false} RunInv(run: seq<Server>, i: nat)
    requires IsRun(run) && i < |run|
    ensures LoginInv(run[i]) && run[i].reg.counter == MessageId(run[i].sent)
  {
    hide Judge, Act;
    if i > 0 {
      RunInv(run, i - 1);
      assert Next(run[i - 1], run[(i - 1) + 1]);
      var st :| Enabled(run[i - 1], st) && run[i] == Apply(run[i - 1], st);
      StepLogin(run[i - 1], st);
      StepCounter(run[i - 1], st);
    }
  }

  lemma {:induction false} RunRemembers(run: seq<Server>, i: nat, j: nat)
    requires IsRun(run) && i <= j < |run|
    ensures Remembers(run[i], run[j])
    decreases j - i
  {
    hide Judge, Act;
    if i < j {
      assert Next(run[i], run[i + 1]);
      var st :| Enabled(run[i], st) && run[i + 1] == Apply(run[i], st);
      RunInv(run, i);
      StepRemembers(run[i], st);
      RunRemembers(run, i + 1, j);
    }
  }

  /** Over any run of any frames: stored passwords never change and logins stay recorded; every
      connected session once presented the password stored for its user; no user is active on
      two connections; and while a connection is active as a user, nobody else has ever logged
      in as that user. */
  lemma LoginHistory(run: seq<Server>, i: nat, j: nat)
    requires IsRun(run) && i <= j < |run|
    ensures Remembers(run[i], run[j])
    ensures forall c :: c in run[j].sessions && run[j].sessions[c].connected ==>
              && c in run[j].logins && run[j].logins[c].user in run[j].reg.users
              && run[j].reg.users[run[j].logins[c].user] == run[j].logins[c].password
    ensures forall c, d :: c in run[j].reg.active && d in run[j].reg.active && run[j].reg.active[c] == run[j].reg.active[d] ==> c == d
    ensures forall c, d :: c in run[j].reg.active && d in run[j].logins && run[j].logins[d].user == run[j].reg.active[c] ==> d == c
  {
    hide Judge, Act;
    RunRemembers(run, i, j);
    RunInv(run, j);
  }

  lemma StepCountsSends(s: Server, st: Step)
    requires Enabled(s, st)
    ensures s.sent <= Apply(s, st).sent
  {
    hide Judge, Act;
  }

  lemma {:induction false} SentGrows(run: seq<Server>, i: nat, j: nat)
    requires IsRun(run) && i <= j < |run|
    ensures run[i].sent <= run[j].sent
    decreases j - i
  {
    hide Judge, Act, Apply;
    if i < j {
      assert Next(run[i], run[i + 1]);
      var st :| Enabled(run[i], st) && run[i + 1] == Apply(run[i], st);
      StepCountsSends(run[i], st);
      SentGrows(run, i + 1, j);
    }
  }

  /** Over any run the message counter, which the last accepted SEND took as its id, never goes
      back before it wraps at 2^31 messages, and differs between any two states less than 2^32
      messages apart. */
  lemma MessageIdsNeverRepeat(run: seq<Server>, i: nat, j: nat)
    requires IsRun(run) && i <= j < |run|
    ensures run[j].sent < 0x8000_0000 ==> run[i].reg.counter <= run[j].reg.counter
    ensures run[i].sent != run[j].sent && run[j].sent < run[i].sent + 0x1_0000_0000 ==> run[i].reg.counter != run[j].reg.counter
  {
    hide Judge, Act, LoginInv, IsRun;
    RunInv(run, i);
    RunInv(run, j);
    SentGrows(run, i, j);
    if run[i].sent < run[j].sent < run[i].sent + 0x1_0000_0000 {
      MessageIdsDistinct(run[i].sent, run[j].sent);
    }
  }

  ghost predicate DisciplinedNext(s: Server, s': Server) {
    exists st :: Enabled(s, st) && s' == Apply(s, st) && Disciplined(s, st)
  }

  /** Over any run whose clients use fresh ids and subscribe to a topic once at a time, the two
      indexes of every registered connection agree in every state. */
  lemma {:induction false} IndexesAgree(run: seq<Server>, i: nat)
    requires run != [] && Init(run[0]) && i < |run|
    requires forall k :: 0 <= k < |run| - 1 ==> DisciplinedNext(run[k], run[k + 1])
    ensures IndexInv(run[i])
  {
    hide Judge, Act;
    if i > 0 {
      IndexesAgree(run, i - 1);
      assert DisciplinedNext(run[i - 1], run[(i - 1) + 1]);
      var st :| Enabled(run[i - 1], st) && run[i] == Apply(run[i - 1], st) && Disciplined(run[i - 1], st);
      StepIndex(run[i - 1], st);
    }
  }
}
