/** The ids on the frames themselves: over a run, two relayed MESSAGEs carry the same message id
    exactly when they come from the same SEND. */
module MessageIds {
  import opened Text
  import opened StompFrames
  import opened Connections
  import opened StompProtocols
  import opened ServerRuns
  import E = LoginEvents

  /** Step `k` is a SEND that the server accepts. */
  ghost predicate Relays(run: seq<Server>, steps: seq<Step>, k: nat) {
    && E.Follows(run, steps) && k < |steps|
    && Enabled(run[k], steps[k]) && steps[k].Handle? && Judge(Before(run[k], steps[k].c), steps[k].f).Relay?
  }

  /** In step `k` connection `d` is sent the frame `m`. */
  ghost predicate Sends(run: seq<Server>, steps: seq<Step>, k: nat, d: nat, m: Frame)
    requires Relays(run, steps, k)
  {
    Gains(Out(run[k].reg, d), Out(run[k + 1].reg, d), m)
  }

  lemma FollowsIsRun(run: seq<Server>, steps: seq<Step>)
    requires E.Follows(run, steps)
    ensures IsRun(run)
  {
    hide Judge, Act, Enabled, Apply;
    forall i | 0 <= i < |run| - 1 ensures Next(run[i], run[i + 1]) {
      assert Enabled(run[i], steps[i]) && run[i + 1] == Apply(run[i], steps[i]);
    }
  }

  lemma RelayIsAct(run: seq<Server>, steps: seq<Step>, k: nat) returns (v: Served, t: string)
    requires Relays(run, steps, k)
    ensures v == Before(run[k], steps[k].c) && Justified(v, Relay(t)) && Judge(v, steps[k].f) == Relay(t)
    ensures run[k + 1].reg == Act(v, steps[k].c, steps[k].f, Relay(t), steps[k].shown).reg
    ensures |run| == |steps| + 1 && run[k + 1].sent == run[k].sent + 1
  {
    hide Judge, Act, Init;
    v := Before(run[k], steps[k].c);
    t := Judge(v, steps[k].f).topic;
    assert run[k + 1] == Apply(run[k], steps[k]);
  }

  lemma SameGain(before: seq<Frame>, after: seq<Frame>, m: Frame, n: Frame)
    requires Gains(before, after, m) && Gains(before, after, n)
    ensures m == n
  {
    assert after[|before|] == m && after[|before|] == n;
  }

  /** A frame sent by an accepted SEND names that SEND. */
  lemma SentIdIs(run: seq<Server>, steps: seq<Step>, k: nat, d: nat, m: Frame)
    requires Relays(run, steps, k) && Sends(run, steps, k, d, m)
    ensures "message-id" in m.headers && m.headers["message-id"] == Decimal(MessageId(run[k].sent + 1))
  {
    hide Judge, Act, Has, Out, Carries, LoginInv, E.Follows, Decimal, MessageId;
    var v, t := RelayIsAct(run, steps, k);
    FollowsIsRun(run, steps);
    RunInv(run, k + 1);
    FanOutExact(v, steps[k].c, steps[k].f, t, steps[k].shown, d);
    var before, after := Out(run[k].reg, d), Out(run[k + 1].reg, d);
    assert |after| == |before| + 1;
    var id :| Has(v.reg, t, d, id);
    var n: Frame :| Gains(before, after, n) && Carries(n, t, id, run[k + 1].reg.counter, steps[k].f.body);
    SameGain(before, after, m, n);
    CarriesId(n, t, id, run[k + 1].reg.counter, steps[k].f.body);
  }

  lemma CarriesId(m: Frame, topic: string, id: int, messageId: int, body: string)
    requires Carries(m, topic, id, messageId, body)
    ensures "message-id" in m.headers && m.headers["message-id"] == Decimal(messageId)
  {
  }

  lemma DecimalIsInjective(m: int, n: int)
    requires IsInt32(m) && IsInt32(n) && Decimal(m) == Decimal(n)
    ensures m == n
  {
    hide Decimal, ParseInt;
    ParseIntOfDecimal(m);
    ParseIntOfDecimal(n);
  }

  lemma LaterCount(run: seq<Server>, steps: seq<Step>, i: nat, j: nat)
    requires Relays(run, steps, i) && Relays(run, steps, j) && i < j
    ensures run[i].sent < run[j].sent
  {
    hide Judge, Act, Enabled, Apply;
    FollowsIsRun(run, steps);
    var v, t := RelayIsAct(run, steps, i);
    SentGrows(run, i + 1, j);
  }

  /** Over every run, of two MESSAGEs sent by accepted SENDs fewer than 2^32 apart, to whichever
      connections, the `message-id` headers are equal if and only if it is the same SEND; below
      2^31 SENDs the later one has the greater id. */
  lemma SameIdIffSameSend(run: seq<Server>, steps: seq<Step>, i: nat, j: nat, d: nat, e: nat, m: Frame, n: Frame)
    requires Relays(run, steps, i) && Relays(run, steps, j) && i <= j
    requires Sends(run, steps, i, d, m) && Sends(run, steps, j, e, n)
    requires run[j].sent < run[i].sent + 0x1_0000_0000
    ensures "message-id" in m.headers && "message-id" in n.headers
    ensures m.headers["message-id"] == n.headers["message-id"] <==> i == j
    ensures i < j && run[j].sent < 0x7FFF_FFFF ==>
              && ParseInt(m.headers["message-id"]).Some? && ParseInt(n.headers["message-id"]).Some?
              && ParseInt(m.headers["message-id"]).value < ParseInt(n.headers["message-id"]).value
  {
    hide Judge, Act, Sends, Enabled, Apply, Init, Decimal, ParseInt, MessageId;
    SentIdIs(run, steps, i, d, m);
    SentIdIs(run, steps, j, e, n);
    var x, y := MessageId(run[i].sent + 1), MessageId(run[j].sent + 1);
    ParseIntOfDecimal(x);
    ParseIntOfDecimal(y);
    if i < j {
      LaterCount(run, steps, i, j);
      MessageIdsDistinct(run[i].sent + 1, run[j].sent + 1);
      if Decimal(x) == Decimal(y) { DecimalIsInjective(x, y); }
    }
  }
}
