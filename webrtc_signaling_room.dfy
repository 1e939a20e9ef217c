/** The WebRTC signalling room: `candidate` and `desc` messages are relayed
    to the one room client the message names, with the message's
    `sessionId` rewritten to the sender's so that the receiver can answer. */
module WebRTCSignalingRoom {
  import opened Common

  /** A signalling message: the `sessionId` it is addressed to and, as one
      opaque value, its other properties (the ICE candidate or the session
      description), which the relay passes on untouched. */
  datatype Signal = Signal(sessionId: string, body: string)

  /** One message put on a connection: recipient, topic, message. */
  datatype Send = Send(to: ConnId, topic: string, message: Signal)

  /** The relay loop shared by both handlers: walk the room's clients in
      order and, at the first whose session id is the one the message names,
      rewrite the message's `sessionId` to the sender's, send it there and
      stop. */
  method Relay(clients: seq<ConnId>, sender: ConnId, topic: string, message: Signal)
    returns (sent: seq<Send>, forwarded: Signal)
    ensures var i := IndexOf(clients, message.sessionId);
      && (i < 0 ==> sent == [] && forwarded == message)
      && (i >= 0 ==> forwarded == message.(sessionId := sender) && sent == [Send(clients[i], topic, forwarded)])
  {
    sent, forwarded := [], message;
    var index := 0;
    while index < |clients|
      invariant 0 <= index <= |clients|
      invariant message.sessionId !in clients[..index]
      invariant sent == [] && forwarded == message
    {
      var value := clients[index];
      if value == forwarded.sessionId {
        forwarded := forwarded.(sessionId := sender);
        sent := [Send(value, topic, forwarded)];
        break;
      }
      assert clients[..index + 1] == clients[..index] + [value];
      index := index + 1;
    }
  }

  /** `onCandidate`: relays an ICE candidate to at most one client, the first
      whose session id the message names. */
  method OnCandidate(clients: seq<ConnId>, sender: ConnId, message: Signal)
    returns (sent: seq<Send>, forwarded: Signal)
    ensures |sent| <= 1
    ensures forwarded.body == message.body
    ensures var i := IndexOf(clients, message.sessionId);
      && (i < 0 ==> sent == [] && forwarded == message)
      && (i >= 0 ==> forwarded == message.(sessionId := sender) && sent == [Send(clients[i], "candidate", forwarded)])
  {
    sent, forwarded := Relay(clients, sender, "candidate", message);
  }

  /** `onDesc`: the same relay for a session description, on topic `desc`. */
  method OnDesc(clients: seq<ConnId>, sender: ConnId, message: Signal)
    returns (sent: seq<Send>, forwarded: Signal)
    ensures |sent| <= 1
    ensures forwarded.body == message.body
    ensures var i := IndexOf(clients, message.sessionId);
      && (i < 0 ==> sent == [] && forwarded == message)
      && (i >= 0 ==> forwarded == message.(sessionId := sender) && sent == [Send(clients[i], "desc", forwarded)])
  {
    sent, forwarded := Relay(clients, sender, "desc", message);
  }
}
