/** The two ways a client that keeps no discipline splits the server's subscription indexes, each
    as frames the server processes from its initial state on. */
module Undisciplined {
  import opened Text
  import C = Connections
  import P = StompProtocols
  import S = ServerRuns
  import K = Clients
  import V = Verdicts
  import H = SessionServe

  /** The server after `c`, the only connection, has sent `requests` in order. */
  function Served(c: nat, requests: seq<K.Request>, shown: string): P.Served {
    if requests == [] then P.Served(C.Registry({c}, map[], map[], map[], 0, map[]), P.Session(false, false, map[]))
    else P.Process(Served(c, requests[..|requests| - 1], shown), c, K.RequestFrame(requests[|requests| - 1]), shown)
  }

  lemma ServedSnoc(c: nat, requests: seq<K.Request>, r: K.Request, shown: string)
    ensures Served(c, requests + [r], shown) == P.Process(Served(c, requests, shown), c, K.RequestFrame(r), shown)
  {
    assert (requests + [r])[..|requests|] == requests;
  }

  lemma AfterConnect(c: nat, user: string, password: string, shown: string)
    ensures var v := Served(c, [K.Connect(user, password)], shown);
            v.session.connected && v.session.subs == map[] && v.reg.topics == map[] && v.reg.registered == {c}
  {
    var v0 := Served(c, [], shown);
    var r := K.Connect(user, password);
    var f := K.RequestFrame(r);
    V.OwnConnect(user, password);
    V.AcceptedIff(v0, f, P.LogIn(user, password));
    hide P.Judge, K.RequestFrame;
    assert [] + [r] == [r];
    ServedSnoc(c, [], r, shown);
  }

  /** A SUBSCRIBE of a session is processed as the subscription it asks for. */
  lemma SubscribeProcessed(v: P.Served, c: nat, channel: string, id: int, n: int, shown: string)
    requires v.session.connected && IsInt32(id)
    ensures var f := K.RequestFrame(K.Subscribe(channel, id, n));
            && P.Process(v, c, f, shown) == P.Act(v, c, f, P.Subscribe(channel, id), shown)
            && P.Process(v, c, f, shown).session == v.session.(subs := v.session.subs[id := channel])
            && P.Process(v, c, f, shown).reg.topics == C.AddSubscription(v.reg, channel, c, id).topics
  {
    H.JudgedSubscribe(v, channel, id, n);
    hide P.Judge, K.RequestFrame;
  }

  lemma AfterSubscribe(c: nat, user: string, password: string, a: string, id: int, n: int, shown: string)
    requires IsInt32(id)
    ensures var v := Served(c, [K.Connect(user, password), K.Subscribe(a, id, n)], shown);
            && v.session.connected && v.session.subs == map[id := a] && S.Agree(v.reg, c, v.session.subs)
  {
    hide P.Process, K.RequestFrame;
    AfterConnect(c, user, password, shown);
    var v := Served(c, [K.Connect(user, password)], shown);
    assert [K.Connect(user, password)] + [K.Subscribe(a, id, n)] == [K.Connect(user, password), K.Subscribe(a, id, n)];
    ServedSnoc(c, [K.Connect(user, password)], K.Subscribe(a, id, n), shown);
    SubscribeProcessed(v, c, a, id, n, shown);
    S.SubscribeAgreesIff(v, c, K.RequestFrame(K.Subscribe(a, id, n)), a, id, shown);
  }

  /** After CONNECT and a SUBSCRIBE, a second SUBSCRIBE under the same id for another topic: the
      server goes on relaying the first topic, which the session has forgotten. */
  lemma ReusedIdDisagrees(c: nat, user: string, password: string, a: string, b: string, id: int, n: int, m: int, shown: string)
    requires a != b && IsInt32(id)
    ensures var v1 := Served(c, [K.Connect(user, password), K.Subscribe(a, id, n)], shown);
            var v2 := Served(c, [K.Connect(user, password), K.Subscribe(a, id, n)] + [K.Subscribe(b, id, m)], shown);
            && S.Agree(v1.reg, c, v1.session.subs) && !S.Agree(v2.reg, c, v2.session.subs)
            && C.Has(v2.reg, a, c, id) && !P.HasTopic(v2.session.subs, a)
  {
    hide P.Process, K.RequestFrame;
    var before := [K.Connect(user, password), K.Subscribe(a, id, n)];
    var v1 := Served(c, before, shown);
    AfterSubscribe(c, user, password, a, id, n, shown);
    ServedSnoc(c, before, K.Subscribe(b, id, m), shown);
    SubscribeProcessed(v1, c, b, id, m, shown);
    S.SubscribeAgreesIff(v1, c, K.RequestFrame(K.Subscribe(b, id, m)), b, id, shown);
    assert v1.session.subs[id] == a;
    assert C.Has(v1.reg, a, c, id);
    S.HasAfterAddOther(v1.reg, b, c, id, a);
  }

  /** A second SUBSCRIBE to the same topic under another id: the session lists both, the server
      relays only under the second. */
  lemma SubscribedTwiceDisagrees(c: nat, user: string, password: string, a: string, id: int, id': int, n: int, m: int, shown: string)
    requires id != id' && IsInt32(id) && IsInt32(id')
    ensures var v1 := Served(c, [K.Connect(user, password), K.Subscribe(a, id, n)], shown);
            var v2 := Served(c, [K.Connect(user, password), K.Subscribe(a, id, n)] + [K.Subscribe(a, id', m)], shown);
            && S.Agree(v1.reg, c, v1.session.subs) && !S.Agree(v2.reg, c, v2.session.subs)
            && id in v2.session.subs && v2.session.subs[id] == a && !C.Has(v2.reg, a, c, id)
  {
    hide P.Process, K.RequestFrame;
    var before := [K.Connect(user, password), K.Subscribe(a, id, n)];
    var v1 := Served(c, before, shown);
    AfterSubscribe(c, user, password, a, id, n, shown);
    ServedSnoc(c, before, K.Subscribe(a, id', m), shown);
    SubscribeProcessed(v1, c, a, id', m, shown);
    S.SubscribeAgreesIff(v1, c, K.RequestFrame(K.Subscribe(a, id', m)), a, id', shown);
    assert v1.session.subs[id] == a;
  }
}
