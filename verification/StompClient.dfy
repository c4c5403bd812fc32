/** The client's session (StompProtocol.cpp, StompClient.cpp): what each command sends and
    remembers, and how each arriving frame is handled; functions and the class that computes
    them in place. */
module Clients {
  import opened Text
  import opened StompFrames
  import opened Events

  /** `waiting` is the command loop blocked in `communicator.join()` after logout. */
  datatype Client = Client(connected: bool, stopped: bool, failed: bool, waiting: bool, nextId: int, nextReceipt: int,
                           subs: map<string, int>, receipts: map<int, string>, summary: map<string, seq<Event>>)

  const START: Client := Client(false, false, false, false, 0, 0, map[], map[], map[])

  /** What the client writes on the wire. */
  datatype Request =
    | Connect(user: string, password: string)
    | Subscribe(channel: string, id: int, receipt: int)
    | Unsubscribe(id: int, receipt: int)
    | Report(channel: string, body: string)
    | Disconnect(receipt: int)

  function SendFrame(channel: string, body: string): Frame {
    Frame("SEND", map["destination" := channel], body)
  }

  function RequestFrame(r: Request): Frame {
    match r
    case Connect(user, password) =>
      Frame("CONNECT", map["accept-version" := "1.2", "host" := "stomp.cs.bgu.ac.il", "login" := user, "passcode" := password], "")
    case Subscribe(channel, id, receipt) =>
      Frame("SUBSCRIBE", map["destination" := channel, "id" := Decimal(id), "receipt" := Decimal(receipt)], "")
    case Unsubscribe(id, receipt) =>
      Frame("UNSUBSCRIBE", map["id" := Decimal(id), "receipt" := Decimal(receipt)], "")
    case Report(channel, body) => SendFrame(channel, body)
    case Disconnect(receipt) => Frame("DISCONNECT", map["receipt" := Decimal(receipt)], "")
  }

  /** The client after a command, and what the command sent. */
  datatype Done = Done(client: Client, sent: seq<Request>)

  const MAX_INT: int := 0x7FFF_FFFF

  /** The command loop is not blocked, and the int counters can still be incremented. */
  predicate CanCount(k: Client) {
    !k.waiting && k.nextId < MAX_INT && k.nextReceipt < MAX_INT
  }

  /** A command will be carried out: without a session it is refused and changes nothing. */
  predicate CanType(k: Client) {
    k.connected && !k.stopped && CanCount(k)
  }

  function Join(k: Client, channel: string): Done {
    if !k.connected || channel in k.subs then Done(k, [])
    else
      Done(k.(nextId := k.nextId + 1, nextReceipt := k.nextReceipt + 1,
              receipts := k.receipts[k.nextReceipt := "Joined channel " + channel],
              subs := k.subs[channel := k.nextId]),
           [Subscribe(channel, k.nextId, k.nextReceipt)])
  }

  /** A receipt number is spent even when the channel is unknown. */
  function Exit(k: Client, channel: string): Done {
    var spent := k.(nextReceipt := k.nextReceipt + 1);
    if !k.connected then Done(k, [])
    else if channel !in k.subs || k.subs[channel] == -1 then Done(spent, [])
    else
      Done(spent.(subs := k.subs - {channel}, receipts := k.receipts[k.nextReceipt := "Exited channel " + channel]),
           [Unsubscribe(k.subs[channel], k.nextReceipt)])
  }

  function Reports(channel: string, bodies: seq<string>): (rs: seq<Request>)
    ensures |rs| == |bodies| && forall i :: 0 <= i < |bodies| ==> rs[i] == Report(channel, bodies[i])
  {
    seq(|bodies|, i requires 0 <= i < |bodies| => Report(channel, bodies[i]))
  }

  lemma ReportsSnoc(channel: string, bodies: seq<string>, body: string, now: seq<Request>, before: seq<Request>)
    requires now == before + Reports(channel, bodies)
    ensures now + [Report(channel, body)] == before + Reports(channel, bodies + [body])
  {
    assert Reports(channel, bodies + [body]) == Reports(channel, bodies) + [Report(channel, body)];
  }

  function Logout(k: Client): Done {
    if !k.connected then Done(k, [])
    else
      Done(k.(nextReceipt := k.nextReceipt + 1, receipts := k.receipts[k.nextReceipt := "Logout"], waiting := true),
           [Disconnect(k.nextReceipt)])
  }

  /** An exception in the communication thread ends the program. */
  function Crash(k: Client): Client {
    k.(stopped := true, failed := true)
  }

  function HandleReceipt(k: Client, f: Frame): Client {
    if "receipt-id" !in f.headers then k
    else
      var n := Stoi(f.headers["receipt-id"]);
      if n.None? then Crash(k)
      else if n.value !in k.receipts then k
      else k.(receipts := k.receipts - {n.value}, stopped := k.stopped || k.receipts[n.value] == "Logout")
  }

  /** A body that is no event crashes the reader. */
  function Remember(k: Client, destination: string, e: Option<Event>): Client {
    if e.None? then Crash(k)
    else
      var stored := if destination in k.summary then k.summary[destination] else [];
      k.(summary := k.summary[destination := stored + [e.value]])
  }

  function HandleMessage(k: Client, f: Frame): Client {
    if "destination" !in f.headers then Crash(k) else Remember(k, f.headers["destination"], ParseEvent(f.body))
  }

  function HandleFrame(k: Client, f: Frame): Client {
    if f.command == "CONNECTED" then k.(connected := true)
    else if f.command == "MESSAGE" then HandleMessage(k, f)
    else if f.command == "ERROR" then k.(stopped := true, failed := true)
    else if f.command == "RECEIPT" then HandleReceipt(k, f)
    else k
  }

  /** The branch of handleReceipt that reports an unknown receipt id. */
  predicate UnknownReceipt(k: Client, f: Frame) {
    f.command == "RECEIPT" && "receipt-id" in f.headers && Stoi(f.headers["receipt-id"]).Some?
    && Stoi(f.headers["receipt-id"]).value !in k.receipts
  }

  // ---------- what each frame does ----------

  function Stored(k: Client, channel: string): seq<Event> {
    if channel in k.summary then k.summary[channel] else []
  }

  /** The event a frame brings to a channel, if it brings one. */
  function Brings(f: Frame, channel: string): seq<Event> {
    if f.command == "MESSAGE" && "destination" in f.headers && f.headers["destination"] == channel then
      match ParseEvent(f.body) case Some(e) => [e] case None => []
    else []
  }

  /** A MESSAGE whose body is an event appends it to the list of its destination; no other list
      changes, and no other frame changes any. */
  lemma HandleAppends(k: Client, f: Frame, channel: string)
    ensures Stored(HandleFrame(k, f), channel) == Stored(k, channel) + Brings(f, channel)
    ensures channel in HandleFrame(k, f).summary <==> channel in k.summary || Brings(f, channel) != []
  {
    hide ParseEvent, HandleReceipt;
    ReceiptStoresNothing(k, f);
    if f.command == "MESSAGE" && "destination" in f.headers {
      RememberAppends(k, f.headers["destination"], ParseEvent(f.body), channel);
    }
  }

  lemma ReceiptStoresNothing(k: Client, f: Frame)
    ensures HandleReceipt(k, f).summary == k.summary && HandleReceipt(k, f).connected == k.connected
  {
  }

  lemma RememberAppends(k: Client, destination: string, e: Option<Event>, channel: string)
    ensures Stored(Remember(k, destination, e), channel)
         == Stored(k, channel) + (if e.Some? && destination == channel then [e.value] else [])
    ensures channel in Remember(k, destination, e).summary <==> channel in k.summary || (e.Some? && destination == channel)
  {
  }

  /** The number a RECEIPT acknowledges. */
  function Number(f: Frame): Option<int> {
    if f.command == "RECEIPT" && "receipt-id" in f.headers then Stoi(f.headers["receipt-id"]) else None
  }

  /** The frames that end the program: an ERROR, a MESSAGE without destination or whose body is
      no event, a RECEIPT whose id is no number. */
  predicate Breaks(f: Frame) {
    || f.command == "ERROR"
    || (f.command == "MESSAGE" && ("destination" !in f.headers || ParseEvent(f.body).None?))
    || (f.command == "RECEIPT" && "receipt-id" in f.headers && Number(f).None?)
  }

  /** A RECEIPT stops the client if and only if it is the one the log-out waits for; besides
      those only the frames that end the program do, as a failure. */
  lemma StopsIff(k: Client, f: Frame)
    ensures HandleFrame(k, f).failed <==> k.failed || Breaks(f)
    ensures HandleFrame(k, f).stopped
       <==> k.stopped || Breaks(f) || (Number(f).Some? && Number(f).value in k.receipts && k.receipts[Number(f).value] == "Logout")
  {
    hide ParseEvent, Stoi, Remember, HandleReceipt, HandleMessage;
    if f.command == "MESSAGE" { MessageStops(k, f); }
    if f.command == "RECEIPT" { ReceiptStops(k, f); }
  }

  lemma MessageStops(k: Client, f: Frame)
    requires f.command == "MESSAGE"
    ensures HandleMessage(k, f).failed <==> k.failed || Breaks(f)
    ensures HandleMessage(k, f).stopped <==> k.stopped || Breaks(f)
    ensures HandleMessage(k, f).receipts == k.receipts
  {
    hide ParseEvent, Remember;
    if "destination" in f.headers { RememberStops(k, f.headers["destination"], ParseEvent(f.body)); }
  }

  lemma RememberStops(k: Client, destination: string, e: Option<Event>)
    ensures var k' := Remember(k, destination, e);
            && k'.failed == (k.failed || e.None?) && k'.stopped == (k.stopped || e.None?) && k'.receipts == k.receipts
  {
  }

  lemma ReceiptStops(k: Client, f: Frame)
    requires f.command == "RECEIPT"
    ensures HandleReceipt(k, f).failed <==> k.failed || Breaks(f)
    ensures HandleReceipt(k, f).stopped
       <==> k.stopped || Breaks(f) || (Number(f).Some? && Number(f).value in k.receipts && k.receipts[Number(f).value] == "Logout")
    ensures HandleReceipt(k, f).receipts == if Number(f).Some? then k.receipts - {Number(f).value} else k.receipts
  {
    hide Stoi, HandleReceipt, Crash;
    if Number(f).Some? { NumberedReceipt(k, f, Number(f).value); } else { UnnumberedReceipt(k, f); }
  }

  lemma NumberedReceipt(k: Client, f: Frame, n: int)
    requires Number(f) == Some(n)
    ensures HandleReceipt(k, f).failed == k.failed && HandleReceipt(k, f).receipts == k.receipts - {n}
    ensures HandleReceipt(k, f).stopped == (k.stopped || (n in k.receipts && k.receipts[n] == "Logout"))
  {
    hide Stoi;
    if n !in k.receipts { assert k.receipts - {n} == k.receipts; }
  }

  lemma UnnumberedReceipt(k: Client, f: Frame)
    requires f.command == "RECEIPT" && Number(f).None?
    ensures var k' := HandleReceipt(k, f);
            k'.failed == (k.failed || Breaks(f)) && k'.stopped == (k.stopped || Breaks(f)) && k'.receipts == k.receipts
  {
    hide Stoi, ParseEvent;
  }

  /** A RECEIPT retires its own entry and no other; no other frame retires any. */
  lemma Retires(k: Client, f: Frame)
    ensures HandleFrame(k, f).receipts == if Number(f).Some? then k.receipts - {Number(f).value} else k.receipts
  {
    hide ParseEvent, Stoi, Remember, HandleReceipt, HandleMessage;
    if f.command == "MESSAGE" { MessageStops(k, f); }
    if f.command == "RECEIPT" { ReceiptStops(k, f); }
  }

  /** What is noted under a request's receipt number, and printed when it is acknowledged. */
  lemma Notes(k: Client, channel: string)
    requires k.connected
    ensures channel !in k.subs ==> Join(k, channel).client.receipts == k.receipts[k.nextReceipt := "Joined channel " + channel]
    ensures channel in k.subs && k.subs[channel] != -1 ==>
              Exit(k, channel).client.receipts == k.receipts[k.nextReceipt := "Exited channel " + channel]
    ensures Logout(k).client.receipts == k.receipts[k.nextReceipt := "Logout"]
  {
  }

  /** What the commands do without a session, on a channel already joined, and on an unknown
      channel: nothing, but for the receipt number the last of them spends. */
  lemma Refused(k: Client, channel: string)
    ensures !k.connected ==> Join(k, channel) == Done(k, []) && Exit(k, channel) == Done(k, []) && Logout(k) == Done(k, [])
    ensures channel in k.subs ==> Join(k, channel) == Done(k, [])
    ensures k.connected && channel !in k.subs ==> Exit(k, channel) == Done(k.(nextReceipt := k.nextReceipt + 1), [])
  {
  }

  class StompProtocol {
    var connected: bool
    var stopCommunication: bool
    var errorOccurred: bool
    var loggingOut: bool
    var idCounter: int
    var receiptCounter: int
    var eventSummary: map<string, seq<Event>>
    var receiptMap: map<int, string>
    var subscriptionIds: map<string, int>
    /** Everything written on the wire, in order. */
    var wire: seq<Request>

    constructor ()
      ensures View() == START && wire == []
    {
      connected, stopCommunication, errorOccurred, loggingOut := false, false, false, false;
      idCounter, receiptCounter, eventSummary, receiptMap, subscriptionIds, wire := 0, 0, map[], map[], map[], [];
    }

    function View(): Client
      reads this
    {
      Client(connected, stopCommunication, errorOccurred, loggingOut, idCounter, receiptCounter, subscriptionIds, receiptMap, eventSummary)
    }

    method GetNextId() returns (id: int)
      modifies `idCounter
      ensures id == old(idCounter) && idCounter == id + 1
    {
      id := idCounter;
      idCounter := idCounter + 1;
    }

    method GetNextReceiptId() returns (id: int)
      modifies `receiptCounter
      ensures id == old(receiptCounter) && receiptCounter == id + 1
    {
      id := receiptCounter;
      receiptCounter := receiptCounter + 1;
    }

    method GetSubscriptionId(channel: string) returns (id: int)
      ensures id == if channel in subscriptionIds then subscriptionIds[channel] else -1
    {
      if channel in subscriptionIds {
        return subscriptionIds[channel];
      }
      return -1;
    }

    /** Frames other than CONNECT need a connection. */
    method SendRequest(r: Request)
      modifies `wire
      ensures wire == if connected || r.Connect? then old(wire) + [r] else old(wire)
    {
      if !connected && !r.Connect? {
        return;
      }
      wire := wire + [r];
    }

    method JoinChannel(channel: string)
      requires CanCount(View())
      modifies this
      ensures View() == Join(old(View()), channel).client && wire == old(wire) + Join(old(View()), channel).sent
    {
      if !connected || channel in subscriptionIds {
        return;
      }
      var subscriptionId := GetNextId();
      var receiptId := GetNextReceiptId();
      receiptMap := receiptMap[receiptId := "Joined channel " + channel];
      subscriptionIds := subscriptionIds[channel := subscriptionId];
      SendRequest(Subscribe(channel, subscriptionId, receiptId));
    }

    method ExitChannel(channel: string)
      requires CanCount(View())
      modifies this
      ensures View() == Exit(old(View()), channel).client && wire == old(wire) + Exit(old(View()), channel).sent
    {
      if !connected {
        return;
      }
      var receiptId := GetNextReceiptId();
      var subscriptionId := GetSubscriptionId(channel);
      if subscriptionId == -1 {
        return;
      }
      subscriptionIds := subscriptionIds - {channel};
      receiptMap := receiptMap[receiptId := "Exited channel " + channel];
      SendRequest(Unsubscribe(subscriptionId, receiptId));
    }

    method ReportEvents(user: string, channel: string, events: seq<Event>) returns (ghost bodies: seq<string>)
      requires CanCount(View())
      modifies `wire
      ensures if connected then |bodies| == |events| else bodies == []
      ensures forall i :: 0 <= i < |bodies| ==> IsReport(bodies[i], user, events[i])
      ensures wire == old(wire) + Reports(channel, bodies)
    {
      hide IsReport;
      bodies := [];
      if !connected {
        return;
      }
      var i := 0;
      while i < |events|
        invariant 0 <= i <= |events| && |bodies| == i
        invariant forall k :: 0 <= k < i ==> IsReport(bodies[k], user, events[k])
        invariant wire == old(wire) + Reports(channel, bodies)
      {
        var body := PrintReport(user, events[i]);
        ReportsSnoc(channel, bodies, body, wire, old(wire));
        bodies := bodies + [body];
        SendRequest(Report(channel, body));
        i := i + 1;
      }
    }

    method LogOut()
      requires CanCount(View())
      modifies this
      ensures View() == Logout(old(View())).client && wire == old(wire) + Logout(old(View())).sent
    {
      if !connected {
        return;
      }
      var receiptId := GetNextReceiptId();
      receiptMap := receiptMap[receiptId := "Logout"];
      SendRequest(Disconnect(receiptId));
      loggingOut := true;
    }

    /** parseFrame: parse, then dispatch on the command. */
    method Receive(message: string)
      modifies this
      ensures View() == HandleFrame(old(View()), ClientParse(message)) && wire == old(wire)
    {
      hide HandleMessage, HandleReceipt, ClientParse;
      var f := ParseFrame(message);
      if f.command == "CONNECTED" {
        connected := true;
      } else if f.command == "MESSAGE" {
        ReceiveMessage(f);
      } else if f.command == "ERROR" {
        stopCommunication, errorOccurred := true, true;
      } else if f.command == "RECEIPT" {
        ReceiveReceipt(f);
      }
    }

    method ReceiveMessage(f: Frame)
      modifies this
      ensures View() == HandleMessage(old(View()), f) && wire == old(wire)
    {
      if "destination" !in f.headers {
        stopCommunication, errorOccurred := true, true;
        return;
      }
      var destination := f.headers["destination"];
      var e := EventFromBody(f.body);
      if e.None? {
        stopCommunication, errorOccurred := true, true;
        return;
      }
      var stored := if destination in eventSummary then eventSummary[destination] else [];
      eventSummary := eventSummary[destination := stored + [e.value]];
    }

    method ReceiveReceipt(f: Frame)
      modifies this
      ensures View() == HandleReceipt(old(View()), f) && wire == old(wire)
    {
      if "receipt-id" !in f.headers {
        return;
      }
      var receiptId := Stoi(f.headers["receipt-id"]);
      if receiptId.None? {
        stopCommunication, errorOccurred := true, true;
        return;
      }
      if receiptId.value in receiptMap {
        if receiptMap[receiptId.value] == "Logout" {
          stopCommunication := true;
        }
        receiptMap := receiptMap - {receiptId.value};
      }
    }
  }
}
