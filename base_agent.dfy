/**
 * The agent node every role is built on: three registries (live connection
 * per peer, handler per message type, learned address per peer), the
 * handshake on inbound connections, dispatch, sending with on-demand
 * connection, broadcast and disconnection.
 *
 * Transport effects are inputs: each connection attempt is an `Attempt`, and
 * every write reports success or failure through a boolean parameter. Frames
 * are modelled at the dictionary level.
 */
module Agents {
  import opened Wrappers
  import opened JsonValue
  import opened OrderedMap
  import McpProtocol

  /** Identity of one websocket connection. */
  type Conn = nat

  datatype Address = Address(host: string, port: int)

  /** Bounded connect policy: three attempts, a pause between attempts. */
  const MaxRetries: nat := 3
  const RetryDelay: nat := 2

  /** The built-in table of the four roles' endpoints. */
  function DefaultAddress(agentId: string): (r: Option<Address>)
    ensures r.Some? <==> agentId in {"brain", "eye", "ear", "mouth"}
    ensures r.Some? ==> r.value.host == "localhost" && 8010 <= r.value.port <= 8013
  {
    match agentId
    case "brain" => Some(Address("localhost", 8010))
    case "eye" => Some(Address("localhost", 8011))
    case "ear" => Some(Address("localhost", 8012))
    case "mouth" => Some(Address("localhost", 8013))
    case _ => None
  }

  /** What address lookup yields: a live connection, or an endpoint to dial. */
  datatype Resolved = Live(agentId: string, conn: Conn) | Endpoint(addr: Address)

  /**
   * The routine a message type is registered to. The first five are the
   * node's own routines (a role may override them); `Routine` is any other.
   */
  datatype Handler = OnText | OnCommand | OnStatus | OnImage | OnAudio | Routine(name: string)

  /** The transport's answer to one connection attempt. */
  datatype Attempt =
    | Refused                               // the open failed
    | Opened(conn: Conn, announced: bool)   // opened; whether the "connected" announcement was written

  predicate Succeeds(a: Attempt) {
    a.Opened? && a.announced
  }

  /** Attempts past the end of the supplied outcomes are refused. */
  function AttemptAt(outcomes: seq<Attempt>, i: nat): Attempt {
    if i < |outcomes| then outcomes[i] else Refused
  }

  /** An outgoing message: an envelope object, a plain dictionary, or a raw string. */
  datatype Outgoing = Envelope(m: McpProtocol.Message) | DictMsg(d: Dict) | RawMsg(s: string)

  /** What is written on the wire. */
  datatype Frame = JsonFrame(d: Dict) | RawFrame(s: string)

  function FrameOf(o: Outgoing): Frame {
    match o
    case Envelope(m) => JsonFrame(McpProtocol.ToDict(m))
    case DictMsg(d) => JsonFrame(d)
    case RawMsg(s) => RawFrame(s)
  }

  /** A dictionary's missing sender and receiver are filled in; present ones are kept. */
  function FillAddresses(d: Dict, senderId: string, receiverId: string): (r: Dict)
    ensures r.Keys == d.Keys + {"sender_id", "receiver_id"}
    ensures "sender_id" in d ==> r["sender_id"] == d["sender_id"]
    ensures "sender_id" !in d ==> r["sender_id"] == Str(senderId)
    ensures "receiver_id" in d ==> r["receiver_id"] == d["receiver_id"]
    ensures "receiver_id" !in d ==> r["receiver_id"] == Str(receiverId)
    ensures forall k :: k in d && k != "sender_id" && k != "receiver_id" ==> r[k] == d[k]
  {
    var withSender := if "sender_id" in d then d else d["sender_id" := Str(senderId)];
    if "receiver_id" in withSender then withSender else withSender["receiver_id" := Str(receiverId)]
  }

  /** Filling twice is filling once, whatever addresses the second fill offers. */
  lemma FillAddressesIdempotent(d: Dict, s: string, r: string, s': string, r': string)
    ensures FillAddresses(FillAddresses(d, s, r), s', r') == FillAddresses(d, s, r)
  {
    var once := FillAddresses(d, s, r);
    var twice := FillAddresses(once, s', r');
    assert twice.Keys == once.Keys;
    forall k | k in once ensures twice[k] == once[k] {
    }
  }

  /** Only plain dictionaries are completed before sending. */
  function Fill(o: Outgoing, senderId: string, receiverId: string): (r: Outgoing)
    ensures r.DictMsg? <==> o.DictMsg?
    ensures o.DictMsg? ==> r == DictMsg(FillAddresses(o.d, senderId, receiverId))
    ensures !o.DictMsg? ==> r == o
  {
    if o.DictMsg? then DictMsg(FillAddresses(o.d, senderId, receiverId)) else o
  }

  lemma FillIdempotent(o: Outgoing, s: string, r: string, s': string, r': string)
    ensures Fill(Fill(o, s, r), s', r') == Fill(o, s, r)
  {
    if o.DictMsg? {
      FillAddressesIdempotent(o.d, s, r, s', r');
    }
  }

  /** The announcement the connecting side writes first. */
  function Announcement(senderId: string, agentType: string, receiverId: string): Dict {
    map["message_type" := Str("status"), "sender_id" := Str(senderId), "receiver_id" := Str(receiverId),
        "content" := Obj(map["status" := Str("connected"),
                             "details" := Obj(map["agent_type" := Str(agentType)])])]
  }

  /** The acceptor's reply to a valid announcement. */
  function AcceptReply(senderId: string, agentType: string, receiverId: string): Dict {
    map["message_type" := Str("status"), "sender_id" := Str(senderId), "receiver_id" := Str(receiverId),
        "content" := Obj(map["status" := Str("accepted"),
                             "details" := Obj(map["agent_type" := Str(agentType)])])]
  }

  /** The courtesy notice sent before closing a connection. */
  function DisconnectNotice(senderId: string, receiverId: string): Dict {
    map["message_type" := Str("status"), "sender_id" := Str(senderId), "receiver_id" := Str(receiverId),
        "content" := Obj(map["status" := Str("disconnected"),
                             "details" := Obj(map["reason" := Str("client_disconnect")])])]
  }

  /** `content.get("status")` of a decoded frame whose content is an object (absent content reads as {}). */
  function StatusOf(d: Dict): Option<Value> {
    var content := GetOr(d, "content", Obj(map[]));
    if content.Obj? then Get(content.fields, "status") else None
  }

  /** What the acceptor makes of the first frame on an inbound connection. */
  datatype FirstFrame =
    | Announced(peer: string)   // a "connected" status announcement from `peer`
    | Invalid                   // any other well-formed dictionary: the connection is closed
    | Unreadable                // not a dictionary, or content is not a dictionary: the handler fails

  /**
   * The handshake test: the first frame must have type "status" and
   * content.status "connected"; the peer is its sender.
   */
  function ClassifyFirst(first: Value): (r: FirstFrame)
    ensures r.Announced? ==> && first.Obj? && Get(first.fields, "message_type") == Some(Str("status"))
                             && StatusOf(first.fields) == Some(Str("connected"))
                             && Get(first.fields, "sender_id") == Some(Str(r.peer))
    ensures first.Obj? && Get(first.fields, "message_type") == Some(Str("status"))
            && GetOr(first.fields, "content", Obj(map[])).Obj? && StatusOf(first.fields) == Some(Str("connected"))
            && "sender_id" in first.fields && first.fields["sender_id"].Str? ==>
              r == Announced(first.fields["sender_id"].s)
    ensures first.Obj? && Get(first.fields, "message_type") != Some(Str("status")) ==> r == Invalid
    ensures !first.Obj? ==> r == Unreadable
  {
    if !first.Obj? then Unreadable
    else
      var d := first.fields;
      if Get(d, "message_type") != Some(Str("status")) then Invalid
      else if !GetOr(d, "content", Obj(map[])).Obj? then Unreadable
      else if StatusOf(d) != Some(Str("connected")) then Invalid
      else if "sender_id" in d && d["sender_id"].Str? then Announced(d["sender_id"].s)
      else Unreadable
  }

  /** What the connecting side announces passes the acceptor's test, naming the announcer. */
  lemma AnnouncementAccepted(senderId: string, agentType: string, receiverId: string)
    ensures ClassifyFirst(Obj(Announcement(senderId, agentType, receiverId))) == Announced(senderId)
  {
  }

  /** A text message as the first frame is refused. */
  lemma TextFirstFrameRejected(freshId: string, now: string, senderId: string, receiverId: string, text: string)
    requires freshId != ""
    ensures ClassifyFirst(Obj(McpProtocol.ToDict(McpProtocol.TextMessage(freshId, now, senderId, receiverId, text))))
            == Invalid
  {
  }

  /** The sender of a "disconnected" status message, if the message is one. */
  function DisconnectedSender(message: Value): (r: Option<string>)
    ensures r.Some? ==> && message.Obj? && "content" in message.fields && message.fields["content"].Obj?
                        && Get(message.fields["content"].fields, "status") == Some(Str("disconnected"))
                        && Get(message.fields, "sender_id") == Some(Str(r.value))
    ensures message.Obj? && "content" in message.fields && message.fields["content"].Obj?
            && Get(message.fields["content"].fields, "status") == Some(Str("disconnected"))
            && "sender_id" in message.fields && message.fields["sender_id"].Str? ==>
              r == Some(message.fields["sender_id"].s)
  {
    if !message.Obj? || "content" !in message.fields || !message.fields["content"].Obj? then None
    else if "sender_id" !in message.fields || !message.fields["sender_id"].Str? then None
    else if GetOr(message.fields["content"].fields, "status", Str("")) != Str("disconnected") then None
    else Some(message.fields["sender_id"].s)
  }

  /** The courtesy notice, once sent, is read by the peer as a disconnection of its sender. */
  lemma NoticeDisconnectsSender(senderId: string, receiverId: string, s: string, r: string)
    ensures DisconnectedSender(Obj(FillAddresses(DisconnectNotice(senderId, receiverId), s, r))) == Some(senderId)
  {
    var d := DisconnectNotice(senderId, receiverId);
    assert FillAddresses(d, s, r) == d;
  }

  /** The registry after connect attempts 0 .. n-1: every opened connection is stored. */
  function AfterAttempts(conns: ODict<string, Conn>, peer: string, outcomes: seq<Attempt>, n: nat): (r: ODict<string, Conn>)
    requires conns.Valid()
    ensures r.Valid()
    ensures n > 0 && AttemptAt(outcomes, n - 1).Opened? ==> peer in r.entries && r.entries[peer] == AttemptAt(outcomes, n - 1).conn
  {
    if n == 0 then conns
    else
      var before := AfterAttempts(conns, peer, outcomes, n - 1);
      match AttemptAt(outcomes, n - 1)
      case Refused => before
      case Opened(c, _) => before.Put(peer, c)
  }

  /** Only the peer's entry can change, and after attempts that were all refused the registry is as it was. */
  lemma {:induction false} AfterAttemptsOnlyPeer(conns: ODict<string, Conn>, peer: string, outcomes: seq<Attempt>, n: nat)
    requires conns.Valid()
    ensures forall k :: k != peer ==> (k in AfterAttempts(conns, peer, outcomes, n).entries <==> k in conns.entries)
    ensures forall k :: k != peer && k in conns.entries ==> AfterAttempts(conns, peer, outcomes, n).entries[k] == conns.entries[k]
    ensures (forall i :: 0 <= i < n ==> AttemptAt(outcomes, i).Refused?) ==> AfterAttempts(conns, peer, outcomes, n) == conns
  {
    if n > 0 {
      AfterAttemptsOnlyPeer(conns, peer, outcomes, n - 1);
    }
  }

  /**
   * A connect that fails on every attempt still leaves the peer registered
   * when some attempt opened the connection but could not announce itself:
   * the registry is written before the announcement.
   */
  lemma StaleConnectionAfterFailedConnect(conns: ODict<string, Conn>, peer: string, c: Conn)
    requires conns.Valid()
    ensures var outcomes := [Refused, Opened(c, false), Refused];
      && (forall i :: 0 <= i < MaxRetries ==> !Succeeds(AttemptAt(outcomes, i)))
      && peer in AfterAttempts(conns, peer, outcomes, MaxRetries).entries
      && AfterAttempts(conns, peer, outcomes, MaxRetries).entries[peer] == c
  {
    var outcomes := [Refused, Opened(c, false), Refused];
    assert AfterAttempts(conns, peer, outcomes, 1) == conns;
    assert AfterAttempts(conns, peer, outcomes, 2) == conns.Put(peer, c);
    assert AfterAttempts(conns, peer, outcomes, 3) == conns.Put(peer, c);
  }

  /**
   * The shared message of the broadcast: once the first peer's send has
   * filled in an unaddressed dictionary, the frame every later peer receives
   * names the first peer, not itself, as the receiver.
   */
  lemma SharedBroadcastMisaddresses(senderId: string, first: string, later: string)
    requires first != later
    ensures var shared := FrameOf(Fill(DictMsg(map[]), senderId, first));
      && shared == FrameOf(Fill(Fill(DictMsg(map[]), senderId, first), senderId, later))
      && shared.JsonFrame? && shared.d["receiver_id"] == Str(first)
      && shared != FrameOf(Fill(DictMsg(map[]), senderId, later))
  {
    FillIdempotent(DictMsg(map[]), senderId, first, senderId, later);
    assert FrameOf(Fill(DictMsg(map[]), senderId, later)).d["receiver_id"] == Str(later);
  }

  class BaseAgent {
    const agentId: string
    const agentType: string
    const host: string
    const port: int
    /** Live connection per peer, in insertion order. */
    var connections: ODict<string, Conn>
    /** Handler per message type; re-registering replaces. */
    var messageHandlers: map<string, Handler>
    /** Addresses learned from the default table. */
    var agentAddresses: map<string, Address>
    var isRunning: bool

    ghost predicate Valid()
      reads this
    {
      connections.Valid()
    }

    constructor (agentId: string, agentType: string, host: string, port: int)
      ensures Valid()
      ensures this.agentId == agentId && this.agentType == agentType && this.host == host && this.port == port
      ensures connections == Empty() && messageHandlers == map[] && agentAddresses == map[] && !isRunning
    {
      this.agentId := agentId;
      this.agentType := agentType;
      this.host := host;
      this.port := port;
      connections := Empty();
      messageHandlers := map[];
      agentAddresses := map[];
      isRunning := false;
    }

    /**
     * Marks the node running, then opens the listening socket (`serveOk`
     * says whether that succeeds); only a node that is listening registers
     * its own text, command and status routines. A failed serve leaves the
     * node marked running with no new routines, and the failure reaches the
     * caller as `started` false.
     */
    method Start(serveOk: bool) returns (started: bool)
      modifies this`isRunning, this`messageHandlers
      ensures isRunning && started == serveOk
      ensures serveOk ==>
        messageHandlers == old(messageHandlers)["text" := OnText]["command" := OnCommand]["status" := OnStatus]
      ensures !serveOk ==> messageHandlers == old(messageHandlers)
    {
      isRunning := true;
      if !serveOk {
        return false;
      }
      started := true;
      RegisterHandler("text", OnText);
      RegisterHandler("command", OnCommand);
      RegisterHandler("status", OnStatus);
    }

    method Stop()
      modifies this`isRunning
      ensures !isRunning
    {
      isRunning := false;
    }

    /** Last write wins for the type; every other entry is untouched. */
    method RegisterHandler(messageType: string, handler: Handler)
      modifies this`messageHandlers
      ensures messageHandlers == old(messageHandlers)[messageType := handler]
      ensures messageType in messageHandlers && messageHandlers[messageType] == handler
      ensures forall t :: t != messageType ==> (t in messageHandlers <==> t in old(messageHandlers))
      ensures forall t :: t != messageType && t in old(messageHandlers) ==> messageHandlers[t] == old(messageHandlers)[t]
    {
      messageHandlers := messageHandlers[messageType := handler];
    }

    /** A peer is connected when the registry holds a connection for it, and then it is listed once in order. */
    predicate IsConnectedTo(peer: string)
      reads this
      ensures IsConnectedTo(peer) <==> peer in connections.entries
      ensures Valid() ==> (IsConnectedTo(peer) <==> peer in connections.keys)
    {
      peer in connections.entries
    }

    /** The connected peers, in registry order. */
    function ConnectedAgents(): (r: seq<string>)
      reads this
      requires Valid()
      ensures forall p :: p in r <==> IsConnectedTo(p)
      ensures Distinct(r)
    {
      connections.keys
    }

    /** Whether lookup can name a connection or an endpoint for the peer. */
    predicate Resolvable(peer: string)
      reads this
    {
      peer in connections.entries || peer in agentAddresses || DefaultAddress(peer).Some?
    }

    /**
     * Lookup order: a live connection, then a learned address, then the
     * default table, whose hit is remembered as a learned address.
     */
    method GetAgentAddress(peer: string) returns (r: Option<Resolved>)
      modifies this`agentAddresses
      ensures r.Some? <==> old(Resolvable(peer))
      ensures peer in connections.entries ==> r == Some(Live(peer, connections.entries[peer]))
      ensures peer !in connections.entries && peer in old(agentAddresses) ==>
        r == Some(Endpoint(old(agentAddresses)[peer]))
      ensures peer !in connections.entries && peer !in old(agentAddresses) && DefaultAddress(peer).Some? ==>
        r == Some(Endpoint(DefaultAddress(peer).value))
      ensures agentAddresses == LearnedAfterLookup(connections.entries, peer, old(agentAddresses))
    {
      if peer in connections.entries {
        return Some(Live(peer, connections.entries[peer]));
      }
      if peer in agentAddresses {
        return Some(Endpoint(agentAddresses[peer]));
      }
      var d := DefaultAddress(peer);
      if d.Some? {
        agentAddresses := agentAddresses[peer := d.value];
        return Some(Endpoint(d.value));
      }
      return None;
    }

    /** The learned addresses after a lookup of `peer`: only a default-table hit adds one. */
    static function LearnedAfterLookup(live: map<string, Conn>, peer: string, learned: map<string, Address>)
      : (r: map<string, Address>)
      ensures forall p :: p in learned ==> p in r && r[p] == learned[p]
      ensures r != learned ==> peer !in live && peer !in learned && DefaultAddress(peer).Some? && r == learned[peer := DefaultAddress(peer).value]
    {
      if peer !in live && peer !in learned && DefaultAddress(peer).Some?
      then learned[peer := DefaultAddress(peer).value]
      else learned
    }

    /**
     * Up to three attempts, pausing only between attempts. Each opened
     * connection is stored before the announcement is written; the first
     * attempt whose announcement is written ends the loop with success.
     */
    method ConnectToAgent(peer: string, host: string, port: int, outcomes: seq<Attempt>)
      returns (ok: bool, attempts: nat, pauses: nat)
      requires Valid()
      modifies this`connections
      ensures Valid()
      ensures 1 <= attempts <= MaxRetries && pauses == attempts - 1
      ensures ok <==> Succeeds(AttemptAt(outcomes, attempts - 1))
      ensures forall i :: 0 <= i < attempts - 1 ==> !Succeeds(AttemptAt(outcomes, i))
      ensures !ok ==> attempts == MaxRetries
      ensures connections == AfterAttempts(old(connections), peer, outcomes, attempts)
      ensures ok ==> peer in connections.entries && connections.entries[peer] == AttemptAt(outcomes, attempts - 1).conn
    {
      pauses := 0;
      for attempt := 0 to MaxRetries
        invariant pauses == attempt - (if attempt == MaxRetries then 1 else 0)
        invariant forall i :: 0 <= i < attempt ==> !Succeeds(AttemptAt(outcomes, i))
        invariant connections == AfterAttempts(old(connections), peer, outcomes, attempt)
      {
        var a := AttemptAt(outcomes, attempt);
        if a.Opened? {
          connections := connections.Put(peer, a.conn);
          assert connections == AfterAttempts(old(connections), peer, outcomes, attempt + 1);
          if a.announced {
            return true, attempt + 1, pauses;
          }
        }
        assert connections == AfterAttempts(old(connections), peer, outcomes, attempt + 1);
        if attempt < MaxRetries - 1 {
          pauses := pauses + 1;
        }
      }
      return false, MaxRetries, pauses;
    }

    /**
     * An unresolvable receiver fails at once. A dictionary gets its missing
     * sender and receiver filled. With a live connection the frame is written
     * once and the write's outcome is returned; otherwise the node connects
     * and, on success, sends again (now over the live connection).
     */
    method SendMessage(receiverId: string, message: Outgoing, writeOk: bool, outcomes: seq<Attempt>)
      returns (ok: bool, filled: Outgoing, frame: Option<Frame>, attempts: nat)
      requires Valid()
      modifies this`connections, this`agentAddresses
      decreases if receiverId in connections.entries then 0 else 1
      ensures Valid()
      ensures agentAddresses == LearnedAfterLookup(old(connections.entries), receiverId, old(agentAddresses))
      ensures !old(Resolvable(receiverId)) ==>
        !ok && filled == message && frame.None? && attempts == 0 && connections == old(connections)
      ensures old(Resolvable(receiverId)) ==> filled == Fill(message, agentId, receiverId)
      ensures frame.Some? ==> frame.value == FrameOf(filled)
      ensures ok <==> frame.Some? && writeOk
      ensures old(IsConnectedTo(receiverId)) ==>
        frame.Some? && attempts == 0 && connections == old(connections)
      ensures old(Resolvable(receiverId)) && !old(IsConnectedTo(receiverId)) ==>
        && 1 <= attempts <= MaxRetries
        && connections == AfterAttempts(old(connections), receiverId, outcomes, attempts)
        && (frame.Some? <==> Succeeds(AttemptAt(outcomes, attempts - 1)))
        && (forall i :: 0 <= i < attempts - 1 ==> !Succeeds(AttemptAt(outcomes, i)))
    {
      var receiver := GetAgentAddress(receiverId);
      if receiver.None? {
        return false, message, None, 0;
      }
      filled := Fill(message, agentId, receiverId);
      if receiverId in connections.entries {
        return writeOk, filled, Some(FrameOf(filled)), 0;
      }
      var addr := receiver.value.addr;
      var connected, tried, _ := ConnectToAgent(receiverId, addr.host, addr.port, outcomes);
      if !connected {
        return false, filled, None, tried;
      }
      ghost var afterConnect := connections;
      assert IsConnectedTo(receiverId);
      var filledAgain, again;
      ok, filledAgain, frame, again := SendMessage(receiverId, filled, writeOk, outcomes);
      FillIdempotent(message, agentId, receiverId, agentId, receiverId);
      attempts := tried;
      assert connections == afterConnect == AfterAttempts(old(connections), receiverId, outcomes, attempts);
    }

    /**
     * Runs the handler registered for the message's type, once; an unknown
     * type runs nothing. Only the node's own status routine acts on the
     * registries here; the other routines belong to the roles.
     */
    method ProcessMessage(data: Value) returns (invoked: Option<Handler>)
      requires Valid()
      modifies this`connections
      ensures Valid()
      ensures invoked.Some? <==> data.Obj? && "message_type" in data.fields && data.fields["message_type"].Str?
                                 && data.fields["message_type"].s in messageHandlers
      ensures invoked.Some? ==> invoked.value == messageHandlers[data.fields["message_type"].s]
      ensures invoked == Some(OnStatus) ==> connections == StatusEffect(old(connections), data)
      ensures invoked != Some(OnStatus) ==> connections == old(connections)
    {
      if !data.Obj? || "message_type" !in data.fields || !data.fields["message_type"].Str? {
        return None;
      }
      var messageType := data.fields["message_type"].s;
      if messageType !in messageHandlers {
        return None;
      }
      invoked := Some(messageHandlers[messageType]);
      if invoked.value == OnStatus {
        HandleStatusMessage(data);
      }
    }

    /** A "disconnected" status drops its sender's connection; other statuses change nothing. */
    method HandleStatusMessage(message: Value)
      requires Valid()
      modifies this`connections
      ensures Valid()
      ensures connections == StatusEffect(old(connections), message)
    {
      var sender := DisconnectedSender(message);
      if sender.Some? && sender.value in connections.entries {
        connections := connections.Remove(sender.value);
      }
    }

    /** The registry after the status routine reads `message`. */
    static function StatusEffect(conns: ODict<string, Conn>, message: Value): (r: ODict<string, Conn>)
      requires conns.Valid()
      ensures r.Valid()
      ensures DisconnectedSender(message).None? ==> r == conns
      ensures DisconnectedSender(message).Some? ==> r.entries == conns.entries - {DisconnectedSender(message).value}
    {
      var sender := DisconnectedSender(message);
      if sender.Some? && sender.value in conns.entries then conns.Remove(sender.value) else conns
    }

    /**
     * The first frame on an inbound connection. A valid announcement registers
     * the connection under the announcer and is answered with "accepted"; if
     * that reply cannot be written the connection has closed, and the
     * closed-connection sweep removes the first peer holding it. Anything else
     * leaves the registry as it was.
     */
    method HandleConnection(websocket: Conn, first: Value, replyOk: bool)
      returns (outcome: FirstFrame, reply: Option<Frame>)
      requires Valid()
      modifies this`connections
      ensures Valid()
      ensures outcome == ClassifyFirst(first)
      ensures reply.Some? <==> outcome.Announced?
      ensures outcome.Announced? ==> reply == Some(JsonFrame(AcceptReply(agentId, agentType, outcome.peer)))
      ensures outcome.Announced? && replyOk ==> connections == old(connections).Put(outcome.peer, websocket)
      ensures outcome.Announced? && !replyOk && websocket !in old(connections.entries).Values ==>
        connections == old(connections).Remove(outcome.peer)
      ensures !outcome.Announced? ==> connections == old(connections)
    {
      outcome := ClassifyFirst(first);
      if !outcome.Announced? {
        return outcome, None;
      }
      var before := connections;
      connections := connections.Put(outcome.peer, websocket);
      reply := Some(JsonFrame(AcceptReply(agentId, agentType, outcome.peer)));
      if !replyOk {
        var registered := connections;
        assert registered.entries[outcome.peer] == websocket;
        var removed := ConnectionClosed(websocket);
        if websocket !in before.entries.Values {
          assert removed == Some(outcome.peer);
          PutThenRemove(before, outcome.peer, websocket);
        }
      }
    }

    /**
     * A connection closed by the peer: the first peer in registry order that
     * holds this connection is removed; no other entry changes.
     */
    method ConnectionClosed(websocket: Conn) returns (removed: Option<string>)
      requires Valid()
      modifies this`connections
      ensures Valid()
      ensures removed.None? ==> connections == old(connections) && websocket !in old(connections.entries).Values
      ensures removed.Some? ==> && removed.value in old(connections.entries)
                                && old(connections.entries)[removed.value] == websocket
                                && connections == old(connections).Remove(removed.value)
      ensures removed.Some? ==> forall i :: 0 <= i < |old(connections.keys)| && old(connections.keys)[i] == removed.value ==>
        forall j :: 0 <= j < i ==> old(connections.entries)[old(connections.keys)[j]] != websocket
    {
      var keys := connections.keys;
      for i := 0 to |keys|
        invariant forall j :: 0 <= j < i ==> connections.entries[keys[j]] != websocket
      {
        if connections.entries[keys[i]] == websocket {
          connections := connections.Remove(keys[i]);
          return Some(keys[i]);
        }
      }
      assert forall p :: p in connections.entries ==> connections.entries[p] != websocket;
      return None;
    }

    /**
     * Sends to every connected peer in registry order and reports one
     * (peer, result) pair per peer. The same message object goes to every
     * send, so the fields the first send fills in stay for the later ones.
     */
    method BroadcastMessage(message: Outgoing, writeOks: seq<bool>)
      returns (results: seq<(string, bool)>, frames: seq<Frame>)
      requires Valid()
      modifies this`connections, this`agentAddresses
      requires |writeOks| >= |connections.keys|
      ensures Valid()
      ensures connections == old(connections) && agentAddresses == old(agentAddresses)
      ensures |results| == |frames| == |connections.keys|
      ensures forall i :: 0 <= i < |results| ==> results[i] == (connections.keys[i], writeOks[i])
      ensures forall i :: 0 <= i < |frames| ==> frames[i] == FrameOf(Fill(message, agentId, connections.keys[0]))
    {
      var keys := connections.keys;
      var current := message;
      results, frames := [], [];
      for i := 0 to |keys|
        invariant Valid()
        invariant connections == old(connections) && agentAddresses == old(agentAddresses)
        invariant |results| == |frames| == i
        invariant forall j :: 0 <= j < i ==> results[j] == (keys[j], writeOks[j])
        invariant forall j :: 0 <= j < i ==> frames[j] == FrameOf(Fill(message, agentId, keys[0]))
        invariant i > 0 ==> current == Fill(message, agentId, keys[0])
        invariant i == 0 ==> current == message
      {
        assert keys[i] in connections.entries;
        var ok, filled, frame, _ := SendMessage(keys[i], current, writeOks[i], []);
        FillIdempotent(message, agentId, keys[0], agentId, keys[i]);
        current := filled;
        results := results + [(keys[i], ok)];
        frames := frames + [frame.value];
      }
    }

    /**
     * Broadcast with a fresh copy of the message for every send, so that the
     * fields filled in for one peer do not leak into the next: an unaddressed
     * dictionary reaches each peer addressed to that peer.
     */
    method BroadcastEach(message: Outgoing, writeOks: seq<bool>)
      returns (results: seq<(string, bool)>, frames: seq<Frame>)
      requires Valid()
      modifies this`connections, this`agentAddresses
      requires |writeOks| >= |connections.keys|
      ensures Valid()
      ensures connections == old(connections) && agentAddresses == old(agentAddresses)
      ensures |results| == |frames| == |connections.keys|
      ensures forall i :: 0 <= i < |results| ==> results[i] == (connections.keys[i], writeOks[i])
      ensures forall i :: 0 <= i < |frames| ==> frames[i] == FrameOf(Fill(message, agentId, connections.keys[i]))
      ensures message.DictMsg? && "receiver_id" !in message.d ==>
        forall i :: 0 <= i < |frames| ==> frames[i].JsonFrame? && "receiver_id" in frames[i].d && frames[i].d["receiver_id"] == Str(connections.keys[i])
    {
      var keys := connections.keys;
      results, frames := [], [];
      for i := 0 to |keys|
        invariant Valid()
        invariant connections == old(connections) && agentAddresses == old(agentAddresses)
        invariant |results| == |frames| == i
        invariant forall j :: 0 <= j < i ==> results[j] == (keys[j], writeOks[j])
        invariant forall j :: 0 <= j < i ==> frames[j] == FrameOf(Fill(message, agentId, keys[j]))
      {
        assert keys[i] in connections.entries;
        var ok, _, frame, _ := SendMessage(keys[i], message, writeOks[i], []);
        results := results + [(keys[i], ok)];
        frames := frames + [frame.value];
      }
    }

    /**
     * Sends the courtesy "disconnected" notice (its outcome does not matter),
     * then closes and forgets the connection. Not connected: nothing happens.
     * A close that raises leaves the entry and reports failure.
     */
    method DisconnectFromAgent(peer: string, noticeOk: bool, closeOk: bool)
      returns (ok: bool, notice: Option<Frame>)
      requires Valid()
      modifies this`connections, this`agentAddresses
      ensures Valid()
      ensures agentAddresses == old(agentAddresses)
      ensures ok <==> old(IsConnectedTo(peer)) && closeOk
      ensures notice.Some? <==> old(IsConnectedTo(peer))
      ensures notice.Some? ==> notice.value == JsonFrame(DisconnectNotice(agentId, peer))
      ensures connections == if ok then old(connections).Remove(peer) else old(connections)
    {
      if peer !in connections.entries {
        return false, None;
      }
      var _, _, frame, _ := SendMessage(peer, DictMsg(DisconnectNotice(agentId, peer)), noticeOk, []);
      assert FillAddresses(DisconnectNotice(agentId, peer), agentId, peer) == DisconnectNotice(agentId, peer);
      notice := frame;
      if !closeOk {
        return false, notice;
      }
      connections := connections.Remove(peer);
      ok := true;
    }

    /**
     * Disconnects every peer of a snapshot of the registry, in order, and
     * reports one (peer, result) pair per peer; exactly the peers whose close
     * succeeded are gone afterwards.
     */
    method DisconnectAll(noticeOks: seq<bool>, closeOks: seq<bool>) returns (results: seq<(string, bool)>)
      requires Valid()
      requires |noticeOks| >= |connections.keys| && |closeOks| >= |connections.keys|
      modifies this`connections, this`agentAddresses
      ensures Valid()
      ensures agentAddresses == old(agentAddresses)
      ensures |results| == |old(connections.keys)|
      ensures forall i :: 0 <= i < |results| ==> results[i] == (old(connections.keys)[i], closeOks[i])
      ensures forall i :: 0 <= i < |results| ==> (IsConnectedTo(old(connections.keys)[i]) <==> !closeOks[i])
      ensures forall p :: IsConnectedTo(p) ==> p in old(connections.entries) && connections.entries[p] == old(connections.entries)[p]
    {
      var keys := connections.keys;
      results := [];
      for i := 0 to |keys|
        invariant Valid()
        invariant agentAddresses == old(agentAddresses)
        invariant |results| == i
        invariant forall j :: 0 <= j < i ==> results[j] == (keys[j], closeOks[j])
        invariant forall j :: 0 <= j < i ==> (keys[j] in connections.entries <==> !closeOks[j])
        invariant forall j :: i <= j < |keys| ==> keys[j] in connections.entries
        invariant forall p :: p in connections.entries ==> p in old(connections.entries) && connections.entries[p] == old(connections.entries)[p]
      {
        var ok, _ := DisconnectFromAgent(keys[i], noticeOks[i], closeOks[i]);
        results := results + [(keys[i], ok)];
      }
    }
  }
}
