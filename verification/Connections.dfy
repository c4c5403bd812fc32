/** The registry shared by all connections (ConnectionsImpl.java): functions on its contents,
    a class whose methods compute them, and the flat set of subscriptions it represents. */
module Connections {
  import opened StompFrames

  /** `outbox` lists, per connection, the frames its handler has accepted and not yet
      delivered. */
  datatype Registry = Registry(registered: set<nat>, topics: map<string, map<nat, int>>,
                               users: map<string, string>, active: map<nat, string>,
                               counter: int, outbox: map<nat, seq<Frame>>)

  function Out(r: Registry, c: nat): seq<Frame> {
    if c in r.outbox then r.outbox[c] else []
  }

  /** A frame for a connection that is not registered is dropped. */
  function Send(r: Registry, c: nat, f: Frame): Registry {
    if c in r.registered then r.(outbox := r.outbox[c := Out(r, c) + [f]]) else r
  }

  function Register(r: Registry, c: nat): Registry {
    r.(registered := r.registered + {c})
  }

  /** Inner maps that become empty stay in place here. */
  function Disconnect(r: Registry, c: nat): Registry {
    r.(registered := r.registered - {c},
       topics := map t | t in r.topics :: r.topics[t] - {c},
       active := r.active - {c})
  }

  predicate IsUserActive(r: Registry, user: string) {
    exists c :: c in r.active && r.active[c] == user
  }

  predicate Accepts(r: Registry, user: string, password: string) {
    user in r.users ==> r.users[user] == password
  }

  /** Only a user seen for the first time is stored and marked active. */
  function Authenticate(r: Registry, c: nat, user: string, password: string): Registry {
    if user in r.users then r
    else r.(users := r.users[user := password], active := r.active[c := user])
  }

  /** AtomicInteger.incrementAndGet, which wraps around. */
  function NextInt(n: int): int {
    if n == 0x7FFF_FFFF then -0x8000_0000 else n + 1
  }

  function Subscribers(r: Registry, topic: string): map<nat, int> {
    if topic in r.topics then r.topics[topic] else map[]
  }

  function AddSubscription(r: Registry, topic: string, c: nat, id: int): Registry {
    r.(topics := r.topics[topic := Subscribers(r, topic)[c := id]])
  }

  /** An inner map left empty is removed. */
  function RemoveSubscription(r: Registry, topic: string, c: nat): Registry {
    if topic !in r.topics then r
    else if r.topics[topic] - {c} == map[] then r.(topics := r.topics - {topic})
    else r.(topics := r.topics[topic := r.topics[topic] - {c}])
  }

  /** RemoveSubscription for a set of topics, in any order. */
  function RemoveSubscriptions(r: Registry, ts: set<string>, c: nat): Registry {
    r.(topics := map t | t in r.topics && (t in ts ==> r.topics[t] - {c} != map[]) ::
         if t in ts then r.topics[t] - {c} else r.topics[t])
  }

  lemma RemoveOneMore(r: Registry, ts: set<string>, t: string, c: nat)
    ensures RemoveSubscription(RemoveSubscriptions(r, ts, c), t, c) == RemoveSubscriptions(r, ts + {t}, c)
  {
    var r1 := RemoveSubscriptions(r, ts, c);
    if t in r.topics {
      assert r.topics[t] - {c} - {c} == r.topics[t] - {c};
    }
    assert RemoveSubscription(r1, t, c).topics == RemoveSubscriptions(r, ts + {t}, c).topics;
  }

  // ---------- the flat view ----------

  datatype Sub = Sub(topic: string, conn: nat, id: int)

  predicate Has(r: Registry, topic: string, c: nat, id: int) {
    topic in r.topics && c in r.topics[topic] && r.topics[topic][c] == id
  }

  /** The set of subscriptions the nested map stands for. */
  ghost function Flat(r: Registry): set<Sub> {
    set t, c | t in r.topics && c in r.topics[t] :: Sub(t, c, r.topics[t][c])
  }

  lemma FlatHas(r: Registry, topic: string, c: nat, id: int)
    ensures Sub(topic, c, id) in Flat(r) <==> Has(r, topic, c, id)
  {
  }

  /** Subscribing replaces the connection's entry for the topic and touches no other. */
  lemma FlatAdd(r: Registry, topic: string, c: nat, id: int)
    ensures Flat(AddSubscription(r, topic, c, id))
         == (set x | x in Flat(r) && !(x.topic == topic && x.conn == c)) + {Sub(topic, c, id)}
  {
    var r' := AddSubscription(r, topic, c, id);
    forall x: Sub ensures x in Flat(r') <==> (x in Flat(r) && !(x.topic == topic && x.conn == c)) || x == Sub(topic, c, id) {
      FlatHas(r, x.topic, x.conn, x.id);
      FlatHas(r', x.topic, x.conn, x.id);
    }
  }

  /** Unsubscribing removes the connection's entry for the topic and no other, whether or not
      the inner map disappears. */
  lemma FlatRemove(r: Registry, topic: string, c: nat)
    ensures Flat(RemoveSubscription(r, topic, c)) == set x | x in Flat(r) && !(x.topic == topic && x.conn == c)
  {
    var r' := RemoveSubscription(r, topic, c);
    forall x: Sub ensures x in Flat(r') <==> x in Flat(r) && !(x.topic == topic && x.conn == c) {
      FlatHas(r, x.topic, x.conn, x.id);
      FlatHas(r', x.topic, x.conn, x.id);
      if x.topic == topic && topic in r.topics && x.conn in r.topics[topic] && x.conn != c {
        assert x.conn in r.topics[topic] - {c};
      }
    }
  }

  /** Unsubscribing leaves no empty inner map behind, and every other topic as it is. */
  lemma RemoveDropsEmpty(r: Registry, topic: string, c: nat, t: string)
    ensures var r' := RemoveSubscription(r, topic, c);
            && r' == r.(topics := r'.topics)
            && (t != topic ==> (t in r'.topics <==> t in r.topics) && (t in r.topics ==> r'.topics[t] == r.topics[t]))
            && (topic in r'.topics <==> topic in r.topics && exists d :: d in r.topics[topic] && d != c)
  {
    if topic in r.topics {
      var left := r.topics[topic] - {c};
      if left != map[] {
        var d :| d in left;
        assert d in r.topics[topic] && d != c;
      }
      assert forall d :: d in left <==> d in r.topics[topic] && d != c;
    }
  }

  /** Disconnecting removes all entries of the connection and no other. */
  lemma FlatDisconnect(r: Registry, c: nat)
    ensures Flat(Disconnect(r, c)) == set x | x in Flat(r) && x.conn != c
  {
    forall x: Sub ensures x in Flat(Disconnect(r, c)) <==> x in Flat(r) && x.conn != c {
      FlatHas(r, x.topic, x.conn, x.id);
      FlatHas(Disconnect(r, c), x.topic, x.conn, x.id);
    }
  }

  // ---------- the class ----------

  class ConnectionsImpl {
    var activeConnections: set<nat>
    var topicSubscriptions: map<string, map<nat, int>>
    var users: map<string, string>
    var activeUsers: map<nat, string>
    var messageCounter: int
    /** What the connections' handlers hold for delivery. */
    var outbox: map<nat, seq<Frame>>

    constructor ()
      ensures View() == Registry({}, map[], map[], map[], 0, map[])
    {
      activeConnections, topicSubscriptions, users, activeUsers, messageCounter, outbox := {}, map[], map[], map[], 0, map[];
    }

    function View(): Registry
      reads this
    {
      Registry(activeConnections, topicSubscriptions, users, activeUsers, messageCounter, outbox)
    }

    method SendTo(connectionId: nat, msg: Frame) returns (sent: bool)
      modifies `outbox
      ensures View() == Send(old(View()), connectionId, msg)
      ensures sent <==> connectionId in activeConnections
    {
      sent := connectionId in activeConnections;
      if sent {
        outbox := outbox[connectionId := (if connectionId in outbox then outbox[connectionId] else []) + [msg]];
      }
    }

    method DisconnectClient(connectionId: nat)
      modifies this
      ensures View() == Disconnect(old(View()), connectionId)
    {
      activeConnections := activeConnections - {connectionId};
      var left := topicSubscriptions.Keys;
      while left != {}
        invariant left <= topicSubscriptions.Keys
        invariant topicSubscriptions == map t | t in old(topicSubscriptions) ::
                    if t in left then old(topicSubscriptions)[t] else old(topicSubscriptions)[t] - {connectionId}
        invariant activeConnections == old(activeConnections) - {connectionId}
        invariant users == old(users) && activeUsers == old(activeUsers) && messageCounter == old(messageCounter) && outbox == old(outbox)
        decreases left
      {
        var t :| t in left;
        topicSubscriptions := topicSubscriptions[t := topicSubscriptions[t] - {connectionId}];
        left := left - {t};
      }
      activeUsers := activeUsers - {connectionId};
    }

    method RegisterClient(connectionId: nat)
      modifies `activeConnections
      ensures View() == Register(old(View()), connectionId)
    {
      activeConnections := activeConnections + {connectionId};
    }

    method AuthenticateUser(connectionId: nat, username: string, password: string) returns (ok: bool)
      modifies `users, `activeUsers
      ensures ok <==> Accepts(old(View()), username, password)
      ensures View() == if ok then Authenticate(old(View()), connectionId, username, password) else old(View())
    {
      if username in users {
        ok := users[username] == password;
      } else {
        users := users[username := password];
        activeUsers := activeUsers[connectionId := username];
        ok := true;
      }
    }

    method GetNextMessageId() returns (id: int)
      modifies `messageCounter
      ensures View() == old(View()).(counter := id) && id == NextInt(old(messageCounter))
    {
      messageCounter := if messageCounter == 0x7FFF_FFFF then -0x8000_0000 else messageCounter + 1;
      id := messageCounter;
    }

    method AddClientSubscription(topic: string, connectionId: nat, subscriptionId: int)
      modifies `topicSubscriptions
      ensures View() == AddSubscription(old(View()), topic, connectionId, subscriptionId)
    {
      if topic !in topicSubscriptions {
        topicSubscriptions := topicSubscriptions[topic := map[]];
      }
      var subscribers: map<nat, int> := topicSubscriptions[topic];
      subscribers := subscribers[connectionId := subscriptionId];
      topicSubscriptions := topicSubscriptions[topic := subscribers];
    }

    method RemoveClientSubscription(topic: string, connectionId: nat)
      modifies `topicSubscriptions
      ensures View() == RemoveSubscription(old(View()), topic, connectionId)
    {
      if topic in topicSubscriptions {
        topicSubscriptions := topicSubscriptions[topic := topicSubscriptions[topic] - {connectionId}];
        if topicSubscriptions[topic] == map[] {
          topicSubscriptions := topicSubscriptions - {topic};
        }
        assert View().topics == RemoveSubscription(old(View()), topic, connectionId).topics;
      }
    }
  }
}
