/**
 * The message envelope shared by all agents: a record with an id, a type tag
 * selecting the receiver's handler, sender and receiver agent ids, an open
 * `content` payload and a creation timestamp, plus its dictionary form.
 *
 * The uuid4 string and the ISO timestamp that the constructor draws from the
 * environment are parameters (`freshId`, `now`).
 */
module McpProtocol {
  import opened Wrappers
  import opened JsonValue

  /** The constant protocol tag written into every full dictionary. */
  const ProtocolTag: string := "MCP/1.0"

  /** The seven keys of the full dictionary form. */
  const EnvelopeKeys: set<string> :=
    {"message_id", "message_type", "sender_id", "receiver_id", "content", "timestamp", "protocol"}

  /** The four keys that the text subclass writes. */
  const TextKeys: set<string> := {"sender_id", "receiver_id", "message_type", "content"}

  /** Which class built the message; only `Text` overrides the dictionary form. */
  datatype MessageClass = Base | Text | Image | Audio | Command | Status

  datatype Message = Message(
    cls: MessageClass,
    messageId: string,
    messageType: string,
    senderId: string,
    receiverId: string,
    content: Value,
    timestamp: string)

  /** Why a dictionary cannot be turned back into a message. */
  datatype DecodeError = MissingKey(key: string) | NotAString(key: string)

  /**
   * The base constructor. A supplied non-empty id is kept; an absent or empty
   * one is replaced by the fresh uuid.
   */
  function NewMessage(cls: MessageClass, messageType: string, senderId: string, receiverId: string,
                      content: Value, messageId: Option<string>, freshId: string, now: string): (m: Message)
    requires freshId != ""
    ensures m.messageId != ""
    ensures messageId.Some? && messageId.value != "" ==> m.messageId == messageId.value
    ensures messageId.None? || messageId.value == "" ==> m.messageId == freshId
    ensures m.cls == cls && m.messageType == messageType && m.content == content
    ensures m.senderId == senderId && m.receiverId == receiverId && m.timestamp == now
  {
    var id := if messageId.Some? && messageId.value != "" then messageId.value else freshId;
    Message(cls, id, messageType, senderId, receiverId, content, now)
  }

  /** A text message: type "text" and content exactly {"text": text}. */
  function TextMessage(freshId: string, now: string, senderId: string, receiverId: string, text: string,
                       messageId: Option<string> := None): (m: Message)
    requires freshId != ""
    ensures m.cls == Text && m.messageType == "text"
    ensures m.content.Obj? && m.content.fields.Keys == {"text"} && m.content.fields["text"] == Str(text)
    ensures m.senderId == senderId && m.receiverId == receiverId
  {
    NewMessage(Text, "text", senderId, receiverId, Obj(map["text" := Str(text)]), messageId, freshId, now)
  }

  /** An image message; `person_name` is present only when a name is given. */
  function ImageMessage(freshId: string, now: string, senderId: string, receiverId: string, imageData: string,
                        format: string := "base64", personName: Option<string> := None,
                        messageId: Option<string> := None): (m: Message)
    requires freshId != ""
    ensures m.cls == Image && m.messageType == "image" && m.content.Obj?
    ensures "person_name" in m.content.fields <==> personName.Some?
    ensures personName.Some? ==> m.content.fields["person_name"] == Str(personName.value)
    ensures m.content.fields.Keys - {"person_name"} == {"image_data", "format"}
    ensures m.content.fields["image_data"] == Str(imageData) && m.content.fields["format"] == Str(format)
  {
    var base := map["image_data" := Str(imageData), "format" := Str(format)];
    var content := if personName.Some? then base["person_name" := Str(personName.value)] else base;
    NewMessage(Image, "image", senderId, receiverId, Obj(content), messageId, freshId, now)
  }

  /** An audio message: {"audio_data": ..., "format": ...}. */
  function AudioMessage(freshId: string, now: string, senderId: string, receiverId: string, audioData: string,
                        format: string := "base64", messageId: Option<string> := None): (m: Message)
    requires freshId != ""
    ensures m.cls == Audio && m.messageType == "audio" && m.content.Obj?
    ensures m.content.fields.Keys == {"audio_data", "format"}
    ensures m.content.fields["audio_data"] == Str(audioData) && m.content.fields["format"] == Str(format)
  {
    NewMessage(Audio, "audio", senderId, receiverId,
               Obj(map["audio_data" := Str(audioData), "format" := Str(format)]), messageId, freshId, now)
  }

  /** A command message; missing (or empty) parameters become the empty map. */
  function CommandMessage(freshId: string, now: string, senderId: string, receiverId: string, command: string,
                          params: Option<Dict> := None, messageId: Option<string> := None): (m: Message)
    requires freshId != ""
    ensures m.cls == Command && m.messageType == "command" && m.content.Obj?
    ensures m.content.fields.Keys == {"command", "params"} && m.content.fields["command"] == Str(command)
    ensures params.None? ==> m.content.fields["params"] == Obj(map[])
    ensures params.Some? ==> m.content.fields["params"] == Obj(params.value)
  {
    NewMessage(Command, "command", senderId, receiverId,
               Obj(map["command" := Str(command), "params" := Obj(params.GetOr(map[]))]), messageId, freshId, now)
  }

  /** A status message; missing (or empty) details become the empty map. */
  function StatusMessage(freshId: string, now: string, senderId: string, receiverId: string, status: string,
                         details: Option<Dict> := None, messageId: Option<string> := None): (m: Message)
    requires freshId != ""
    ensures m.cls == Status && m.messageType == "status" && m.content.Obj?
    ensures m.content.fields.Keys == {"status", "details"} && m.content.fields["status"] == Str(status)
    ensures details.None? ==> m.content.fields["details"] == Obj(map[])
    ensures details.Some? ==> m.content.fields["details"] == Obj(details.value)
  {
    NewMessage(Status, "status", senderId, receiverId,
               Obj(map["status" := Str(status), "details" := Obj(details.GetOr(map[]))]), messageId, freshId, now)
  }

  /**
   * The dictionary form. Every class writes the seven envelope keys with the
   * protocol tag, except the text subclass, which writes only sender,
   * receiver, type and content.
   */
  function ToDict(m: Message): (d: Dict)
    ensures m.cls != Text ==> d.Keys == EnvelopeKeys && d["protocol"] == Str(ProtocolTag)
    ensures m.cls != Text ==> d["message_id"] == Str(m.messageId) && d["timestamp"] == Str(m.timestamp)
    ensures m.cls == Text ==> d.Keys == TextKeys
    ensures "message_type" in d && d["message_type"] == Str(m.messageType)
    ensures "sender_id" in d && d["sender_id"] == Str(m.senderId)
    ensures "receiver_id" in d && d["receiver_id"] == Str(m.receiverId)
    ensures "content" in d && d["content"] == m.content
  {
    if m.cls == Text then
      map["sender_id" := Str(m.senderId), "receiver_id" := Str(m.receiverId),
          "message_type" := Str(m.messageType), "content" := m.content]
    else
      map["message_id" := Str(m.messageId), "message_type" := Str(m.messageType),
          "sender_id" := Str(m.senderId), "receiver_id" := Str(m.receiverId),
          "content" := m.content, "timestamp" := Str(m.timestamp), "protocol" := Str(ProtocolTag)]
  }

  /**
   * The dictionary a text message turns into: it carries neither the id nor
   * the timestamp, so it depends on sender, receiver and text alone.
   */
  function TextDict(senderId: string, receiverId: string, text: string): (d: Dict)
    ensures d.Keys == TextKeys && d["message_type"] == Str("text")
    ensures d["content"] == Obj(map["text" := Str(text)])
    ensures d["sender_id"] == Str(senderId) && d["receiver_id"] == Str(receiverId)
  {
    map["sender_id" := Str(senderId), "receiver_id" := Str(receiverId),
        "message_type" := Str("text"), "content" := Obj(map["text" := Str(text)])]
  }

  /** Every text message, whatever its id and timestamp, has the dictionary form above. */
  lemma TextMessageToDict(freshId: string, now: string, senderId: string, receiverId: string, text: string,
                          messageId: Option<string>)
    requires freshId != ""
    ensures ToDict(TextMessage(freshId, now, senderId, receiverId, text, messageId)) == TextDict(senderId, receiverId, text)
  {
  }

  /** A required string field of the dictionary. */
  function StringField(d: Dict, key: string): (r: Result<string, DecodeError>)
    ensures r.Success? <==> key in d && d[key].Str?
    ensures r.Success? ==> d[key] == Str(r.value)
    ensures key !in d ==> r == Failure(MissingKey(key))
  {
    if key !in d then Failure(MissingKey(key))
    else if !d[key].Str? then Failure(NotAString(key))
    else Success(d[key].s)
  }

  /** The optional `message_id`: absent and null both mean "none given". */
  function OptionalId(d: Dict): (r: Result<Option<string>, DecodeError>)
    ensures r.Success? <==> "message_id" !in d || d["message_id"].Null? || d["message_id"].Str?
    ensures r == Success(None) <==> "message_id" !in d || d["message_id"].Null?
    ensures "message_id" in d && d["message_id"].Str? ==> r == Success(Some(d["message_id"].s))
  {
    if "message_id" !in d || d["message_id"].Null? then Success(None)
    else if d["message_id"].Str? then Success(Some(d["message_id"].s))
    else Failure(NotAString("message_id"))
  }

  /** What decoding needs: type, sender, receiver and content present. */
  predicate Decodable(d: Dict) {
    && "message_type" in d && d["message_type"].Str?
    && "sender_id" in d && d["sender_id"].Str?
    && "receiver_id" in d && d["receiver_id"].Str?
    && "content" in d
    && ("message_id" !in d || d["message_id"].Null? || d["message_id"].Str?)
  }

  /**
   * Rebuilds a base-class message from its dictionary form. The timestamp is
   * the decoding time, never the one carried in the dictionary.
   */
  function FromDict(d: Dict, freshId: string, now: string): (r: Result<Message, DecodeError>)
    requires freshId != ""
    ensures r.Success? <==> Decodable(d)
    ensures "message_type" !in d ==> r == Failure(MissingKey("message_type"))
    ensures r.Success? ==> r.value.cls == Base && r.value.timestamp == now && r.value.messageId != ""
    ensures r.Success? ==> && d["message_type"] == Str(r.value.messageType)
                           && d["sender_id"] == Str(r.value.senderId)
                           && d["receiver_id"] == Str(r.value.receiverId)
                           && d["content"] == r.value.content
  {
    var messageType :- StringField(d, "message_type");
    var senderId :- StringField(d, "sender_id");
    var receiverId :- StringField(d, "receiver_id");
    if "content" !in d then Failure(MissingKey("content"))
    else
      var messageId :- OptionalId(d);
      Success(NewMessage(Base, messageType, senderId, receiverId, d["content"], messageId, freshId, now))
  }

  /**
   * Decoding the full dictionary of a message gives back the same message,
   * as a base-class message stamped with the decoding time.
   */
  lemma DecodeEncode(m: Message, freshId: string, now: string)
    requires freshId != "" && m.cls != Text && m.messageId != ""
    ensures FromDict(ToDict(m), freshId, now) == Success(m.(cls := Base, timestamp := now))
  {
  }

  /**
   * The text subclass drops the id from its dictionary, so decoding it keeps
   * type, sender, receiver and content but draws a fresh id.
   */
  lemma DecodeTextEncode(m: Message, freshId: string, now: string)
    requires freshId != "" && m.cls == Text
    ensures FromDict(ToDict(m), freshId, now)
         == Success(Message(Base, freshId, m.messageType, m.senderId, m.receiverId, m.content, now))
  {
  }

  /**
   * Encoding a decoded dictionary reproduces its four required fields and,
   * when the dictionary carried a non-empty id, that id.
   */
  lemma EncodeDecode(d: Dict, freshId: string, now: string)
    requires freshId != "" && Decodable(d)
    ensures FromDict(d, freshId, now).Success?
    ensures var e := ToDict(FromDict(d, freshId, now).value);
      && e["message_type"] == d["message_type"] && e["sender_id"] == d["sender_id"]
      && e["receiver_id"] == d["receiver_id"] && e["content"] == d["content"]
    ensures "message_id" in d && d["message_id"].Str? && d["message_id"].s != "" ==>
      ToDict(FromDict(d, freshId, now).value)["message_id"] == d["message_id"]
  {
  }

  /** The dictionary form of a text message decodes to a text-typed message with the same text. */
  lemma TextMessageDecodes(freshId: string, freshId': string, now: string, now': string,
                           senderId: string, receiverId: string, text: string)
    requires freshId != "" && freshId' != ""
    ensures var r := FromDict(ToDict(TextMessage(freshId, now, senderId, receiverId, text)), freshId', now');
      && r.Success? && r.value.messageType == "text" && r.value.messageId == freshId'
      && r.value.content == Obj(map["text" := Str(text)])
  {
  }
}
