/**
 * The mouth agent: what it takes to be the text to speak from a message,
 * and the first-in first-out queue feeding the speech engine. Speech
 * synthesis itself is outside the model.
 */
module Speech {
  import opened Wrappers
  import opened JsonValue
  import McpProtocol

  /**
   * The text to speak: `content.text` when the content is an object with a
   * text; otherwise the content itself; without a content, the message's own
   * `text`, or the empty string.
   */
  function SpokenText(message: Dict): (r: Value)
    ensures "content" in message && message["content"].Obj? && "text" in message["content"].fields ==>
      r == message["content"].fields["text"]
    ensures "content" in message && !(message["content"].Obj? && "text" in message["content"].fields) ==>
      r == message["content"]
    ensures "content" !in message ==> r == GetOr(message, "text", Str(""))
  {
    if "content" in message then
      var content := message["content"];
      if content.Obj? && "text" in content.fields then content.fields["text"] else content
    else GetOr(message, "text", Str(""))
  }

  /** Who asked for speech: the sender, or "unknown". */
  function Requester(message: Dict): (r: Value)
    ensures "sender_id" in message ==> r == message["sender_id"]
    ensures "sender_id" !in message ==> r == Str("unknown")
  {
    GetOr(message, "sender_id", Str("unknown"))
  }

  /** The frame that shows the speech on the web page. */
  function SpeechFrame(text: Value): (d: Dict)
    ensures d.Keys == {"type", "content"} && d["type"] == Str("speech") && d["content"] == text
  {
    map["type" := Str("speech"), "content" := text]
  }

  /** A text message as the brain sends it is spoken word for word. */
  lemma SpeaksBrainReply(senderId: string, text: string)
    ensures SpokenText(McpProtocol.TextDict(senderId, "mouth", text)) == Str(text)
  {
  }

  class MouthAgent {
    /** Texts waiting to be spoken, oldest first. */
    var ttsQueue: seq<Value>

    constructor ()
      ensures ttsQueue == []
    {
      ttsQueue := [];
    }

    /** Shows the text on the web page and queues it for speech, behind everything already queued. */
    method HandleTextMessage(message: Dict) returns (toWeb: Dict)
      modifies this`ttsQueue
      ensures ttsQueue == old(ttsQueue) + [SpokenText(message)]
      ensures toWeb == SpeechFrame(SpokenText(message))
    {
      var text := SpokenText(message);
      toWeb := SpeechFrame(text);
      ttsQueue := ttsQueue + [text];
    }

    /** The next text for the speech engine: the oldest queued one; nothing when the queue is empty. */
    method NextSpeech() returns (text: Option<Value>)
      modifies this`ttsQueue
      ensures old(ttsQueue) == [] ==> text.None? && ttsQueue == []
      ensures old(ttsQueue) != [] ==> text == Some(old(ttsQueue)[0]) && ttsQueue == old(ttsQueue)[1..]
    {
      if ttsQueue == [] {
        return None;
      }
      text := Some(ttsQueue[0]);
      ttsQueue := ttsQueue[1..];
    }

    /** Stopping waits until every queued text has been handed to the speech engine, in queue order. */
    method Stop() returns (spoken: seq<Value>)
      modifies this`ttsQueue
      ensures spoken == old(ttsQueue) && ttsQueue == []
    {
      spoken := [];
      while ttsQueue != []
        invariant spoken + ttsQueue == old(ttsQueue)
        decreases |ttsQueue|
      {
        var next := NextSpeech();
        spoken := spoken + [next.value];
      }
    }
  }
}
