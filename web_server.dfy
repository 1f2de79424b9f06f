/**
 * The web dashboard: the set of open page connections, the broadcast that
 * every agent uses to show things on the page, and the chat endpoint that
 * forwards what the user types to the brain. Each connection is an opaque
 * socket; whether a send on it succeeds is given as a parameter.
 */
module Dashboard {
  import opened Wrappers
  import opened JsonValue
  import Brain

  type Socket = nat

  const BrainMissingText: string := "大脑智能体未启动，无法处理消息"

  /**
   * The frame forwarded to the brain for a chat frame from the page: the
   * text, sender and receiver are copied and the type is fixed to "text".
   * A frame lacking any of them, or whose content is not an object, cannot
   * be forwarded.
   */
  function Reshape(frame: Dict): (r: Option<Dict>)
    ensures r.Some? <==>
      && "content" in frame && frame["content"].Obj? && "text" in frame["content"].fields
      && "sender_id" in frame && "receiver_id" in frame
    ensures r.Some? ==> && r.value.Keys == {"content", "sender_id", "receiver_id", "message_type"}
                        && r.value["content"] == Obj(map["text" := frame["content"].fields["text"]])
                        && r.value["sender_id"] == frame["sender_id"]
                        && r.value["receiver_id"] == frame["receiver_id"]
                        && r.value["message_type"] == Str("text")
  {
    if "content" in frame && frame["content"].Obj? && "text" in frame["content"].fields
       && "sender_id" in frame && "receiver_id" in frame
    then
      Some(map["content" := Obj(map["text" := frame["content"].fields["text"]]),
               "sender_id" := frame["sender_id"], "receiver_id" := frame["receiver_id"],
               "message_type" := Str("text")])
    else None
  }

  /** A forwarded frame whose text is a string reaches the brain's text handler with that text. */
  lemma ReshapeFeedsBrain(frame: Dict)
    requires Reshape(frame).Some?
    ensures frame["content"].fields["text"].Str? ==>
      Brain.TextInput(Reshape(frame).value) == Some(frame["content"].fields["text"].s)
    ensures !frame["content"].fields["text"].Str? ==> Brain.TextInput(Reshape(frame).value).None?
  {
  }

  /** What became of one frame from the page. */
  datatype FrameOutcome =
    | Forwarded(message: Dict)   // handed to the brain's text handler
    | BrainMissing               // no brain agent: an error notice is broadcast
    | Malformed                  // a field was missing: an error notice is broadcast
    | Ignored                    // not a chat frame

  function OutcomeOf(frame: Dict, brainUp: bool): (r: FrameOutcome)
    ensures GetOr(frame, "type", Null) != Str("text") ==> r == Ignored
    ensures GetOr(frame, "type", Null) == Str("text") && !brainUp ==> r == BrainMissing
    ensures GetOr(frame, "type", Null) == Str("text") && brainUp ==>
      (if Reshape(frame).Some? then r == Forwarded(Reshape(frame).value) else r == Malformed)
  {
    if GetOr(frame, "type", Null) != Str("text") then Ignored
    else if !brainUp then BrainMissing
    else match Reshape(frame)
      case Some(m) => Forwarded(m)
      case None => Malformed
  }

  class Server {
    /** The open page connections. */
    var connections: set<Socket>

    constructor ()
      ensures connections == {}
    {
      connections := {};
    }

    /**
     * Sends the message to every open connection; a connection whose send
     * fails is dropped. True iff at least one send succeeded, so false
     * without any connection.
     */
    method BroadcastMessage(message: Dict, sendOk: Socket -> bool) returns (success: bool, reached: set<Socket>)
      modifies this`connections
      ensures old(connections) == {} ==> !success && reached == {}
      ensures reached == set c | c in old(connections) && sendOk(c)
      ensures success <==> reached != {}
      ensures connections == reached
    {
      if connections == {} {
        return false, {};
      }
      var remaining := connections;
      success := false;
      reached := {};
      while remaining != {}
        invariant remaining <= old(connections) && reached <= old(connections) && remaining !! reached
        invariant forall c :: c in old(connections) && c !in remaining ==> (c in reached <==> sendOk(c))
        invariant success <==> reached != {}
        modifies {}
        decreases |remaining|
      {
        var c :| c in remaining;
        remaining := remaining - {c};
        if sendOk(c) {
          success := true;
          reached := reached + {c};
        }
      }
      forall c
        ensures c in reached <==> c in old(connections) && sendOk(c)
      {
      }
      assert reached == set c | c in old(connections) && sendOk(c);
      connections := reached;
    }

    /**
     * One page session: the connection is registered, greeted with a status
     * frame and, if that send works, its frames are handled in order until
     * one is not an object; the connection is unregistered at the end
     * whatever happened.
     */
    method Serve(ws: Socket, greetOk: bool, frames: seq<Value>, brainUp: bool)
      returns (outcomes: seq<FrameOutcome>)
      modifies this`connections
      ensures connections == old(connections) - {ws}
      ensures !greetOk ==> outcomes == []
      ensures greetOk ==> |outcomes| <= |frames| && (|outcomes| == |frames| || !frames[|outcomes|].Obj?)
      ensures forall i :: 0 <= i < |outcomes| ==> frames[i].Obj? && outcomes[i] == OutcomeOf(frames[i].fields, brainUp)
    {
      connections := connections + {ws};
      outcomes := [];
      if greetOk {
        var i := 0;
        while i < |frames| && frames[i].Obj?
          invariant 0 <= i <= |frames| && |outcomes| == i
          invariant forall j :: 0 <= j < i ==> frames[j].Obj? && outcomes[j] == OutcomeOf(frames[j].fields, brainUp)
          invariant connections == old(connections) + {ws}
        {
          outcomes := outcomes + [OutcomeOf(frames[i].fields, brainUp)];
          i := i + 1;
        }
      }
      connections := connections - {ws};
    }
  }
}
