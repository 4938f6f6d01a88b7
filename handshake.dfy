/** The session bookkeeping of Session.Connect and Session.Disconnect
    (connect.go:24-137), with the goroutines and channels replaced by a
    sequence of already-received messages processed in delivery order. */
module Handshake {
  import opened Wire
  import opened Errors
  import opened Items

  /** The caller-held session fields that the handshake writes. */
  datatype SessionState = SessionState(lastRequestID: uint64, clientID: string, bridgeURL: string)

  /** connectResponse: the device and the capability items that succeeded. */
  datatype ConnectResponse = ConnectResponse(device: DeviceInfo, items: seq<ItemReply>)

  /** The zero connectResponse that Connect returns when no "connect" event is seen. */
  const EmptyResponse: ConnectResponse := ConnectResponse(NoDevice, [])

  datatype ConnectResult = ConnectResult(session: SessionState, response: ConnectResponse, err: Option<Failure>)

  /** `correlated` records whether the consumer recognised the reply to its
      request, the one case in which it cancels the shared scope itself. */
  datatype DisconnectResult =
    DisconnectResult(session: SessionState, request: DisconnectRequest, err: Option<Failure>, correlated: bool)

  /** The id harvest of both consumers: a parsed id overwrites the counter
      (as uint64(msgID)); an id that did not parse leaves it alone. */
  function Harvest(last: uint64, id: Option<int64>): (r: uint64)
    ensures id.None? ==> r == last
    ensures id.Some? ==> ToInt64(r) == id.value
  {
    match id
    case None => last
    case Some(v) => ToUint64(v)
  }

  /** s.LastRequestID + 1 in uint64 arithmetic. */
  function NextRequestID(last: uint64): (r: uint64)
    ensures r == (last + 1) % TWO_64
    ensures r == 0 <==> last == TWO_64 - 1
  {
    if last == TWO_64 - 1 then 0 else last + 1
  }

  /** The two events that end the connect consumer's loop. */
  predicate IsTerminal(m: Message) {
    m.event == "connect" || m.event == "connect_error"
  }

  /** The position of the first terminal event, if any. */
  function FirstTerminal(msgs: seq<BridgeMessage>): (r: Option<nat>)
    ensures r.Some? ==> r.value < |msgs| && IsTerminal(msgs[r.value].message)
    ensures r.Some? ==> forall j :: 0 <= j < r.value ==> !IsTerminal(msgs[j].message)
    ensures r.None? ==> forall j :: 0 <= j < |msgs| ==> !IsTerminal(msgs[j].message)
    decreases |msgs|
  {
    if msgs == [] then None
    else if IsTerminal(msgs[0].message) then Some(0)
    else match FirstTerminal(msgs[1..])
      case None => None
      case Some(k) => Some(k + 1)
  }

  /** The outcome of the winning "connect" event: harvest the id, record the
      peer and its bridge, split the items. */
  function OnConnect(s: SessionState, m: BridgeMessage): (r: ConnectResult)
    ensures r.err != Some(Cancelled)
    ensures r.err.None? <==>
              forall i :: 0 <= i < |m.message.payload.items| ==> m.message.payload.items[i].error.None?
    ensures r.err.None? ==> r.response.items == m.message.payload.items
    ensures r.err.Some? ==> r.err.value.JoinedErrors?
    ensures r.err.Some? ==> |r.response.items| + |r.err.value.errs| == |m.message.payload.items|
  {
    var p := m.message.payload;
    JoinAbsentIff(p.items);
    SplitCounts(p.items);
    ConnectResult(
      SessionState(Harvest(s.lastRequestID, m.message.id), m.from, m.bridgeURL),
      ConnectResponse(p.device, Successes(p.items)),
      Join(ItemErrors(p.items)))
  }

  /** The outcome of the connect consumer over the messages in delivery
      order: non-terminal events are skipped, the first terminal one decides,
      and running out of messages is the cancellation of the wait. */
  function ConnectOutcome(s: SessionState, msgs: seq<BridgeMessage>): (r: ConnectResult)
    ensures r.err == Some(Cancelled) <==> FirstTerminal(msgs).None?
    ensures r.err == Some(Cancelled) ==> r.session == s && r.response == EmptyResponse
    ensures r.err.Some? && r.err.value.Protocol? ==> r.session == s && r.response == EmptyResponse
    decreases |msgs|
  {
    if msgs == [] then ConnectResult(s, EmptyResponse, Some(Cancelled))
    else if msgs[0].message.event == "connect" then OnConnect(s, msgs[0])
    else if msgs[0].message.event == "connect_error" then
      ConnectResult(s, EmptyResponse, Some(Protocol(ConnectError(msgs[0].message.payload))))
    else ConnectOutcome(s, msgs[1..])
  }

  /** The disconnect request for the next id after `last`. */
  function RequestFor(last: uint64): (r: DisconnectRequest)
    ensures r.verb == "disconnect" && r.params == []
    ensures IsDigits(r.id) && ParseDecimal(r.id) == (last + 1) % TWO_64
  {
    DecimalRoundTrip(NextRequestID(last));
    DisconnectRequest(FormatUint(NextRequestID(last)), "disconnect", [])
  }

  /** The disconnect consumer's verdict on the first message it receives:
      only a reply whose id equals the request id and that carries an error
      fails; every other message ends the consumer with success. */
  function ReplyOutcome(id: uint64, m: Message): (r: Option<Failure>)
    ensures m.error.None? ==> r.None?
    ensures r.Some? ==> r.value.Protocol? && m.id.Some? && ToUint64(m.id.value) == id
    ensures r.Some? && m.error.value.message != "" ==> r.value.err == Explicit(m.error.value.message)
  {
    if m.id == Some(ToInt64(id)) && m.error.Some? then Some(Protocol(DisconnectError(m.error.value)))
    else None
  }

  /** The outcome of Disconnect: the send path first (committing the new id
      only when the send succeeds), then the consumer on the first message. */
  function DisconnectOutcome(s: SessionState, sendOk: bool, msgs: seq<BridgeMessage>): (r: DisconnectResult)
    ensures r.session.clientID == s.clientID && r.session.bridgeURL == s.bridgeURL
    ensures r.correlated ==> sendOk && msgs != []
    ensures r.err.Some? && r.err.value.Protocol? ==> r.correlated
  {
    var id := NextRequestID(s.lastRequestID);
    var req := RequestFor(s.lastRequestID);
    if !sendOk then DisconnectResult(s, req, Some(SendFailed), false)
    else if msgs == [] then DisconnectResult(s.(lastRequestID := id), req, Some(Cancelled), false)
    else
      DisconnectResult(s.(lastRequestID := Harvest(id, msgs[0].message.id)), req,
                       ReplyOutcome(id, msgs[0].message), msgs[0].message.id == Some(ToInt64(id)))
  }

  /** The caller's session; Connect and Disconnect update it in place. */
  class Session {
    var lastRequestID: uint64
    var clientID: string
    var bridgeURL: string

    function State(): SessionState
      reads this
    {
      SessionState(lastRequestID, clientID, bridgeURL)
    }

    /** A new session holds Go's zero values. */
    constructor ()
      ensures State() == SessionState(0, "", "")
    {
      lastRequestID, clientID, bridgeURL := 0, "", "";
    }

    /** The connect consumer loop of Session.Connect. */
    method Connect(msgs: seq<BridgeMessage>) returns (response: ConnectResponse, err: Option<Failure>)
      modifies this
      ensures ConnectResult(State(), response, err) == ConnectOutcome(old(State()), msgs)
    {
      response := EmptyResponse;
      var i := 0;
      while i < |msgs|
        invariant 0 <= i <= |msgs|
        invariant State() == old(State())
        invariant ConnectOutcome(State(), msgs[i..]) == ConnectOutcome(old(State()), msgs)
        decreases |msgs| - i
      {
        var msg := msgs[i];
        if msg.message.event == "connect" {
          match msg.message.id {
            case Some(v) => lastRequestID := ToUint64(v);
            case None =>
          }
          clientID := msg.from;
          bridgeURL := msg.bridgeURL;
          var items, itemErr := GetConnectItems(msg.message.payload.items);
          response := ConnectResponse(msg.message.payload.device, items);
          err := itemErr;
          return;
        } else if msg.message.event == "connect_error" {
          err := Some(Protocol(ConnectError(msg.message.payload)));
          return;
        }
        assert msgs[i..][1..] == msgs[i + 1..];
        i := i + 1;
      }
      err := Some(Cancelled);
    }

    /** Session.Disconnect: build and send the request, commit the id on a
        successful send, then judge the first received message. */
    method Disconnect(sendOk: bool, msgs: seq<BridgeMessage>)
      returns (request: DisconnectRequest, err: Option<Failure>, correlated: bool)
      modifies this
      ensures DisconnectResult(State(), request, err, correlated) == DisconnectOutcome(old(State()), sendOk, msgs)
    {
      correlated := false;
      var id := NextRequestID(lastRequestID);
      request := DisconnectRequest(FormatUint(id), "disconnect", []);
      if !sendOk {
        err := Some(SendFailed);
        return;
      }
      lastRequestID := id;
      if |msgs| == 0 {
        err := Some(Cancelled);
        return;
      }
      var msg := msgs[0].message;
      match msg.id {
        case Some(v) => lastRequestID := ToUint64(v);
        case None =>
      }
      err := None;
      if msg.id == Some(ToInt64(id)) {
        correlated := true;
        if msg.error.Some? {
          err := Some(Protocol(DisconnectError(msg.error.value)));
        }
      }
    }
  }

  /** The first terminal event alone decides Connect: with none the wait is
      cancelled; a "connect" writes the session and returns the split items
      with their joined error; a "connect_error" fails with the mapped error. */
  lemma {:induction false} ConnectDecidedByFirstTerminal(s: SessionState, msgs: seq<BridgeMessage>)
    ensures FirstTerminal(msgs).None? ==>
              ConnectOutcome(s, msgs) == ConnectResult(s, EmptyResponse, Some(Cancelled))
    ensures FirstTerminal(msgs).Some? && msgs[FirstTerminal(msgs).value].message.event == "connect" ==>
              ConnectOutcome(s, msgs) == OnConnect(s, msgs[FirstTerminal(msgs).value])
    ensures FirstTerminal(msgs).Some? && msgs[FirstTerminal(msgs).value].message.event == "connect_error" ==>
              ConnectOutcome(s, msgs) ==
                ConnectResult(s, EmptyResponse,
                              Some(Protocol(ConnectError(msgs[FirstTerminal(msgs).value].message.payload))))
    decreases |msgs|
  {
    if msgs != [] && !IsTerminal(msgs[0].message) {
      ConnectDecidedByFirstTerminal(s, msgs[1..]);
    }
  }

  /** A "connect" event records the peer and bridge it came from, harvests
      its id, and returns exactly the error-free items with the joined error
      of the others: a partial result can come back with an error. */
  lemma ConnectWinnerWrites(s: SessionState, msgs: seq<BridgeMessage>, k: nat)
    requires FirstTerminal(msgs) == Some(k) && msgs[k].message.event == "connect"
    ensures ConnectOutcome(s, msgs).session.clientID == msgs[k].from
    ensures ConnectOutcome(s, msgs).session.bridgeURL == msgs[k].bridgeURL
    ensures ConnectOutcome(s, msgs).session.lastRequestID == Harvest(s.lastRequestID, msgs[k].message.id)
    ensures ConnectOutcome(s, msgs).response.device == msgs[k].message.payload.device
    ensures ConnectOutcome(s, msgs).response.items == Successes(msgs[k].message.payload.items)
    ensures ConnectOutcome(s, msgs).err.None? <==>
              forall i :: 0 <= i < |msgs[k].message.payload.items| ==> msgs[k].message.payload.items[i].error.None?
  {
    ConnectDecidedByFirstTerminal(s, msgs);
    JoinAbsentIff(msgs[k].message.payload.items);
  }

  /** Every failure of Connect other than the joined item error (a
      "connect_error" or a cancelled wait) leaves the session untouched and
      returns no partial result. */
  lemma {:induction false} ConnectFailureLeavesSession(s: SessionState, msgs: seq<BridgeMessage>)
    ensures ConnectOutcome(s, msgs).err.Some? && !ConnectOutcome(s, msgs).err.value.JoinedErrors? ==>
              ConnectOutcome(s, msgs).session == s && ConnectOutcome(s, msgs).response == EmptyResponse
    decreases |msgs|
  {
    if msgs != [] && !IsTerminal(msgs[0].message) {
      ConnectFailureLeavesSession(s, msgs[1..]);
    }
  }

  /** Once a terminal event has been delivered, later messages (a duplicate
      "connect" from another bridge, say) change nothing: first responder wins. */
  lemma {:induction false} ConnectIgnoresLaterMessages(s: SessionState, msgs: seq<BridgeMessage>, later: seq<BridgeMessage>)
    requires FirstTerminal(msgs).Some?
    ensures ConnectOutcome(s, msgs + later) == ConnectOutcome(s, msgs)
    decreases |msgs|
  {
    if !IsTerminal(msgs[0].message) {
      ConnectIgnoresLaterMessages(s, msgs[1..], later);
      assert (msgs + later)[1..] == msgs[1..] + later;
    }
  }

  /** Non-terminal messages before the decisive one are skipped. */
  lemma {:induction false} ConnectSkipsNonTerminal(s: SessionState, skipped: seq<BridgeMessage>, msgs: seq<BridgeMessage>)
    requires forall j :: 0 <= j < |skipped| ==> !IsTerminal(skipped[j].message)
    ensures ConnectOutcome(s, skipped + msgs) == ConnectOutcome(s, msgs)
    decreases |skipped|
  {
    if skipped != [] {
      assert (skipped + msgs)[1..] == skipped[1..] + msgs;
      ConnectSkipsNonTerminal(s, skipped[1..], msgs);
    } else {
      assert skipped + msgs == msgs;
    }
  }

  /** A parsed id overwrites the counter whatever its value, so the counter
      can go down. */
  lemma HarvestOverwrites()
    ensures Harvest(5, Some(3)) < 5
  {
  }

  /** The request carries the decimal string of LastRequestID + 1 (wrapping
      at 2^64), the method "disconnect" and no params, whatever happens to it. */
  lemma DisconnectRequestShape(s: SessionState, sendOk: bool, msgs: seq<BridgeMessage>)
    ensures DisconnectOutcome(s, sendOk, msgs).request.verb == "disconnect"
    ensures DisconnectOutcome(s, sendOk, msgs).request.params == []
    ensures IsDigits(DisconnectOutcome(s, sendOk, msgs).request.id)
    ensures ParseDecimal(DisconnectOutcome(s, sendOk, msgs).request.id) == (s.lastRequestID + 1) % TWO_64
  {
    DecimalRoundTrip(NextRequestID(s.lastRequestID));
  }

  /** Disconnect writes only the counter: a failed send leaves it as it was;
      a successful send commits the new id, which the first received message
      then overwrites if its id parses. */
  lemma DisconnectCounter(s: SessionState, sendOk: bool, msgs: seq<BridgeMessage>)
    ensures DisconnectOutcome(s, sendOk, msgs).session.clientID == s.clientID
    ensures DisconnectOutcome(s, sendOk, msgs).session.bridgeURL == s.bridgeURL
    ensures !sendOk ==> DisconnectOutcome(s, sendOk, msgs).session == s
    ensures !sendOk ==> DisconnectOutcome(s, sendOk, msgs).err == Some(SendFailed)
    ensures msgs == [] ==> !DisconnectOutcome(s, sendOk, msgs).correlated
    ensures sendOk && (msgs == [] || msgs[0].message.id.None?) ==>
              ParseDecimal(DisconnectOutcome(s, sendOk, msgs).request.id)
                == DisconnectOutcome(s, sendOk, msgs).session.lastRequestID
    ensures sendOk && msgs != [] && msgs[0].message.id.Some? ==>
              ToInt64(DisconnectOutcome(s, sendOk, msgs).session.lastRequestID) == msgs[0].message.id.value
  {
    DecimalRoundTrip(NextRequestID(s.lastRequestID));
  }

  /** After a successful send the first message decides: it is the
      correlated reply (and cancels the scope) exactly when its id is the
      request id; it fails exactly when it is correlated and carries an
      error, with that error mapped by the disconnection table; otherwise
      the consumer ends with success. */
  lemma DisconnectReply(s: SessionState, msgs: seq<BridgeMessage>)
    requires msgs != []
    ensures DisconnectOutcome(s, true, msgs).correlated <==>
              msgs[0].message.id == Some(ToInt64(NextRequestID(s.lastRequestID)))
    ensures DisconnectOutcome(s, true, msgs).err.Some? <==>
              msgs[0].message.id == Some(ToInt64(NextRequestID(s.lastRequestID))) && msgs[0].message.error.Some?
    ensures DisconnectOutcome(s, true, msgs).err.Some? ==>
              DisconnectOutcome(s, true, msgs).err.value == Protocol(DisconnectError(msgs[0].message.error.value))
  {
  }

  /** Messages after the first one play no part in Disconnect. */
  lemma DisconnectFirstMessageDecides(s: SessionState, sendOk: bool, m: BridgeMessage, rest: seq<BridgeMessage>)
    ensures DisconnectOutcome(s, sendOk, [m] + rest) == DisconnectOutcome(s, sendOk, [m])
  {
  }

  /** With LastRequestID 5 the request id is "6"; a reply with id 6 and no
      error is the correlated reply, a success that leaves the counter at 6;
      with id 6 and code 1 it is a bad request; a first reply with id 7 is not
      correlated: the consumer stops reading with no error of its own (even
      though the reply carries an error), sets the counter to 7 and does not
      cancel, so the Go call then waits on the bridge subscription. */
  lemma DisconnectExamples(c: string, u: string, p: Payload)
    ensures RequestFor(5).id == "6"
    ensures DisconnectOutcome(SessionState(5, c, u), true,
              [BridgeMessage(c, u, Message("", Some(6), p, None))])
            == DisconnectResult(SessionState(6, c, u), RequestFor(5), None, true)
    ensures DisconnectOutcome(SessionState(5, c, u), true,
              [BridgeMessage(c, u, Message("", Some(6), p, Some(WireError(1, ""))))]).err
            == Some(Protocol(BadRequest))
    ensures DisconnectOutcome(SessionState(5, c, u), true,
              [BridgeMessage(c, u, Message("", Some(7), p, Some(WireError(1, ""))))])
            == DisconnectResult(SessionState(7, c, u), RequestFor(5), None, false)
  {
  }

  /** A connect_error with code 300 and no message ahead of any "connect"
      fails as "user declined" and leaves the session as it was. */
  lemma ConnectDeclinedExample(s: SessionState, junk: BridgeMessage, m: BridgeMessage, later: seq<BridgeMessage>)
    requires !IsTerminal(junk.message)
    requires m.message.event == "connect_error" && m.message.payload.code == 300 && m.message.payload.message == ""
    ensures ConnectOutcome(s, [junk, m] + later) == ConnectResult(s, EmptyResponse, Some(Protocol(UserDeclined)))
  {
    assert ([junk, m] + later)[1..] == [m] + later;
  }
}
