/**
 * The brain agent: the conversation context it keeps, the retry around the
 * language model, the handlers for text, image and audio messages, and the
 * window of recent dialogue consulted when it answers an image. Every model
 * call is an outcome given as a parameter; what the handlers send (to the
 * mouth agent and to the web page) is returned instead of sent.
 */
module Brain {
  import opened Wrappers
  import opened JsonValue
  import McpProtocol

  /** An entry of the conversation context. */
  datatype Turn = Turn(role: string, content: string)

  /** What one call to the language model gives: a reply, or an exception with its text. */
  datatype LlmOutcome = Reply(text: string) | Raised(error: string)

  /** Attempts at a chat reply before the error is reported. */
  const MaxRetries: nat := 3
  /** Context entries looked at for the recent-dialogue window, and entries kept. */
  const ScanDepth: nat := 20
  const WindowSize: nat := 10

  const ReplyPrefix: string := "你好，我收到了你的消息: "
  const Apology: string := "抱歉，我无法处理你的消息"
  const NoMultimodalAnalysis: string := "我看到了一个图像，但我无法识别人物的表情和动作。"
  const FailedAnalysis: string := "无法识别表情和动作。"
  const VoicePrefix: string := "[语音输入] "
  const TextErrorPrefix: string := "生成回复时出错: "
  const AudioErrorPrefix: string := "生成音频回复时出错: "

  // ---------------------------------------------------------------------
  // The recent-dialogue window
  // ---------------------------------------------------------------------

  predicate IsDialogue(t: Turn) {
    t.role == "user" || t.role == "assistant"
  }

  /** The dialogue entries of `s`, in order. */
  function Dialogue(s: seq<Turn>): (r: seq<Turn>)
    ensures |r| <= |s|
    ensures forall i :: 0 <= i < |r| ==> IsDialogue(r[i])
  {
    if s == [] then []
    else Dialogue(s[..|s| - 1]) + (if IsDialogue(s[|s| - 1]) then [s[|s| - 1]] else [])
  }

  /** `context[-20:]`: the last twenty entries, or all of them. */
  function LastEntries(context: seq<Turn>): (r: seq<Turn>)
    ensures |r| == if |context| < ScanDepth then |context| else ScanDepth
    ensures r == context[|context| - |r|..]
  {
    if |context| <= ScanDepth then context else context[|context| - ScanDepth..]
  }

  /** The window: the first ten dialogue entries among the last twenty entries. */
  function Window(context: seq<Turn>): (r: seq<Turn>)
    ensures |r| <= WindowSize
    ensures forall i :: 0 <= i < |r| ==> IsDialogue(r[i])
  {
    var d := Dialogue(LastEntries(context));
    if |d| <= WindowSize then d else d[..WindowSize]
  }

  /** Filtering a prefix gives a prefix of the filtered whole. */
  lemma {:induction false} DialoguePrefix(s: seq<Turn>, i: nat)
    requires i <= |s|
    ensures Dialogue(s[..i]) <= Dialogue(s)
    decreases |s| - i
  {
    if i < |s| {
      DialoguePrefix(s, i + 1);
      assert s[..i + 1][..i] == s[..i];
    } else {
      assert s[..i] == s;
    }
  }

  /** Every entry of `s` that is dialogue is kept, and nothing else is. */
  lemma {:induction false} DialogueMembers(s: seq<Turn>, t: Turn)
    ensures t in Dialogue(s) <==> t in s && IsDialogue(t)
    decreases |s|
  {
    if s != [] {
      DialogueMembers(s[..|s| - 1], t);
      assert s == s[..|s| - 1] + [s[|s| - 1]];
    }
  }

  /** With fewer than ten dialogue entries among the last twenty, the window holds all of them. */
  lemma WindowComplete(context: seq<Turn>, t: Turn)
    requires |Dialogue(LastEntries(context))| <= WindowSize
    ensures t in Window(context) <==> t in LastEntries(context) && IsDialogue(t)
  {
    DialogueMembers(LastEntries(context), t);
  }

  /** Dialogue added after the last twenty entries pushes older entries out: only recent entries count. */
  lemma WindowFromRecent(context: seq<Turn>, t: Turn)
    requires t in Window(context)
    ensures IsDialogue(t) && t in context[|context| - |LastEntries(context)|..]
  {
    var d := Dialogue(LastEntries(context));
    assert t in d;
    DialogueMembers(LastEntries(context), t);
  }

  // ---------------------------------------------------------------------
  // Messages the brain reads and writes
  // ---------------------------------------------------------------------

  /** The chat frame shown on the web page. */
  function ChatFrame(senderId: string, text: string): (d: Dict)
    ensures d.Keys == {"type", "sender_id", "content"} && d["type"] == Str("chat")
    ensures d["sender_id"] == Str(senderId) && d["content"] == Obj(map["text" := Str(text)])
  {
    map["type" := Str("chat"), "sender_id" := Str(senderId), "content" := Obj(map["text" := Str(text)])]
  }

  /**
   * The text of a text or audio message: the content must be an object and
   * the message must name its sender; a missing text is the empty string.
   */
  function TextInput(message: Dict): (r: Option<string>)
    ensures r.Some? ==> "content" in message && message["content"].Obj? && "sender_id" in message
    ensures r.Some? ==> GetOr(message["content"].fields, "text", Str("")) == Str(r.value)
    ensures "content" !in message || "sender_id" !in message ==> r.None?
    ensures "content" in message && message["content"].Obj? && "sender_id" in message
            && GetOr(message["content"].fields, "text", Str("")).Str? ==>
              r == Some(GetOr(message["content"].fields, "text", Str("")).s)
  {
    if "content" !in message || !message["content"].Obj? || "sender_id" !in message then None
    else
      var text := GetOr(message["content"].fields, "text", Str(""));
      if text.Str? then Some(text.s) else None
  }

  /** What an image message gives: the image and, when present and non-empty, the person's name. */
  datatype ImageInput = ImageInput(imageData: string, personName: Option<string>)

  /**
   * The image (empty when absent) and the person's name, from a message
   * with an object content and a sender; a name that is absent, null or
   * empty means no name.
   */
  function ImageInputOf(message: Dict): (r: Option<ImageInput>)
    ensures r.Some? <==>
      && "content" in message && message["content"].Obj? && "sender_id" in message
      && GetOr(message["content"].fields, "image_data", Str("")).Str?
      && (GetOr(message["content"].fields, "person_name", Null).Str? || GetOr(message["content"].fields, "person_name", Null).Null?)
    ensures r.Some? ==> GetOr(message["content"].fields, "image_data", Str("")) == Str(r.value.imageData)
    ensures r.Some? ==>
      (r.value.personName.Some? <==> "person_name" in message["content"].fields
                                     && message["content"].fields["person_name"].Str?
                                     && message["content"].fields["person_name"].s != "")
    ensures r.Some? && r.value.personName.Some? ==>
      && r.value.personName.value != "" && "person_name" in message["content"].fields
      && message["content"].fields["person_name"] == Str(r.value.personName.value)
  {
    if "content" !in message || !message["content"].Obj? || "sender_id" !in message then None
    else
      var content := message["content"].fields;
      var imageData := GetOr(content, "image_data", Str(""));
      var name := GetOr(content, "person_name", Null);
      if !imageData.Str? then None
      else if name.Str? && name.s != "" then Some(ImageInput(imageData.s, Some(name.s)))
      else if name.Null? || name == Str("") then Some(ImageInput(imageData.s, None))
      else None
  }

  /** The system entry recording what was seen. */
  function VisionNote(personName: Option<string>, analysis: string): (s: string) {
    "[视觉信息] 图像中" + (if personName.Some? then "的" + personName.value else "") + "人物表情和动作: " + analysis
  }

  /** How the person is referred to in the greeting prompt. */
  function PersonInfo(personName: Option<string>): string {
    if personName.Some? then "名字是" + personName.value + "的人" else "对方"
  }

  /** Which greeting prompt is used: a follow-up when there is recent dialogue, a first greeting otherwise. */
  datatype GreetingPrompt = FollowUp(personInfo: string, analysis: string) | FirstGreeting(personInfo: string, analysis: string)

  /** The canned answer to a text message. */
  function ProcessTextMessage(message: Value): (r: string)
    ensures ReplyPrefix <= r || r == Apology
    ensures message.Obj? && "content" !in message.fields ==> r == ReplyPrefix
  {
    if !message.Obj? then Apology
    else
      var content := GetOr(message.fields, "content", Obj(map[]));
      if !content.Obj? then Apology
      else
        var text := GetOr(content.fields, "text", Str(""));
        if text.Str? then ReplyPrefix + text.s else Apology
  }

  /** The text a canned answer acknowledges, when it is one. */
  function AcknowledgedText(reply: string): (r: Option<string>)
    ensures r.Some? <==> ReplyPrefix <= reply
  {
    if ReplyPrefix <= reply then Some(reply[|ReplyPrefix|..]) else None
  }

  /**
   * Every message with an object content (or none) and a string text is
   * acknowledged with exactly that text; every other message gets the apology.
   */
  lemma ProcessTextMessageAcknowledges(message: Value)
    ensures var content := if message.Obj? then GetOr(message.fields, "content", Obj(map[])) else Null;
      var text := if content.Obj? then GetOr(content.fields, "text", Str("")) else Null;
      && (text.Str? ==> AcknowledgedText(ProcessTextMessage(message)) == Some(text.s))
      && (!text.Str? ==> ProcessTextMessage(message) == Apology && AcknowledgedText(Apology).None?)
  {
  }

  // ---------------------------------------------------------------------
  // The language-model retry
  // ---------------------------------------------------------------------

  /** How many calls the retry makes from call `i` on: up to the first reply, and never past the third. */
  function AttemptsFrom(outcomes: seq<LlmOutcome>, i: nat): (n: nat)
    requires i < MaxRetries <= |outcomes|
    ensures i < n <= MaxRetries
    decreases MaxRetries - i
  {
    if outcomes[i].Reply? || i == MaxRetries - 1 then i + 1 else AttemptsFrom(outcomes, i + 1)
  }

  /** The number of calls the retry makes. */
  function AttemptsUsed(outcomes: seq<LlmOutcome>): (n: nat)
    requires MaxRetries <= |outcomes|
    ensures 1 <= n <= MaxRetries
  {
    AttemptsFrom(outcomes, 0)
  }

  /** The calls made are exactly those up to and including the first reply, or all three. */
  lemma {:induction false} AttemptsFromFirstReply(outcomes: seq<LlmOutcome>, i: nat)
    requires i < MaxRetries <= |outcomes|
    ensures var n := AttemptsFrom(outcomes, i);
      && (forall j :: i <= j < n - 1 ==> outcomes[j].Raised?)
      && (outcomes[n - 1].Raised? ==> n == MaxRetries)
    decreases MaxRetries - i
  {
    if !outcomes[i].Reply? && i < MaxRetries - 1 {
      AttemptsFromFirstReply(outcomes, i + 1);
    }
  }

  /**
   * Up to three chat calls: the first reply ends the attempts; after the
   * third failure its exception is the result.
   */
  method ChatWithRetry(outcomes: seq<LlmOutcome>) returns (result: LlmOutcome, attempts: nat)
    requires |outcomes| >= MaxRetries
    ensures attempts == AttemptsUsed(outcomes)
    ensures 1 <= attempts <= MaxRetries
    ensures result == outcomes[attempts - 1]
    ensures forall i :: 0 <= i < attempts - 1 ==> outcomes[i].Raised?
    ensures result.Raised? ==> attempts == MaxRetries
    ensures result.Reply? <==> exists i :: 0 <= i < MaxRetries && outcomes[i].Reply?
  {
    attempts := 0;
    while true
      invariant 0 <= attempts < MaxRetries
      invariant forall i :: 0 <= i < attempts ==> outcomes[i].Raised?
      invariant AttemptsFrom(outcomes, attempts) == AttemptsUsed(outcomes)
      decreases MaxRetries - attempts
    {
      var outcome := outcomes[attempts];
      attempts := attempts + 1;
      if outcome.Reply? || attempts == MaxRetries {
        return outcome, attempts;
      }
    }
  }

  class BrainAgent {
    const agentId: string
    /** Whether the image model can look at images. */
    const multimodalSupport: bool
    /** The conversation so far, oldest first. */
    var context: seq<Turn>

    constructor (agentId: string, multimodalSupport: bool)
      ensures this.agentId == agentId && this.multimodalSupport == multimodalSupport && context == []
    {
      this.agentId := agentId;
      this.multimodalSupport := multimodalSupport;
      context := [];
    }

    /** Scans the last twenty entries in order, keeping dialogue until ten are kept. */
    method RecentContext() returns (recent: seq<Turn>)
      ensures recent == Window(context)
    {
      var last := LastEntries(context);
      recent := [];
      for i := 0 to |last|
        invariant recent == Dialogue(last[..i])
        invariant |recent| < WindowSize
      {
        if IsDialogue(last[i]) {
          recent := recent + [last[i]];
        }
        assert last[..i + 1][..i] == last[..i];
        if |recent| >= WindowSize {
          DialoguePrefix(last, i + 1);
          return;
        }
      }
      assert last[..|last|] == last;
    }

    /**
     * A text message: the text joins the context as a user entry; a reply
     * joins it as an assistant entry and goes to the mouth agent and the web
     * page; a failure after the retries goes to the web page as an error.
     * A malformed message changes nothing.
     */
    method HandleTextMessage(message: Dict, chat: seq<LlmOutcome>)
      returns (toMouth: Option<Dict>, toWeb: Option<Dict>)
      requires |chat| >= MaxRetries
      modifies this`context
      ensures TextInput(message).None? ==> context == old(context) && toMouth.None? && toWeb.None?
      ensures TextInput(message).Some? ==>
        Answered(old(context), Turn("user", TextInput(message).value), chat, TextErrorPrefix, context, toMouth, toWeb)
    {
      var input := TextInput(message);
      if input.None? {
        return None, None;
      }
      context := context + [Turn("user", input.value)];
      toMouth, toWeb := Answer(chat, TextErrorPrefix);
    }

    /**
     * What a text or audio turn ends in, given the context before it, the
     * user entry it adds and the chat outcomes tried.
     */
    ghost predicate Answered(before: seq<Turn>, user: Turn, chat: seq<LlmOutcome>, errorPrefix: string,
                             after: seq<Turn>, toMouth: Option<Dict>, toWeb: Option<Dict>)
      requires MaxRetries <= |chat|
      reads this
    {
      var attempts := AttemptsUsed(chat);
      && (chat[attempts - 1].Reply? ==>
            && after == before + [user, Turn("assistant", chat[attempts - 1].text)]
            && toMouth == Some(McpProtocol.TextDict(agentId, "mouth", chat[attempts - 1].text))
            && toWeb == Some(ChatFrame("brain", chat[attempts - 1].text)))
      && (chat[attempts - 1].Raised? ==>
            && after == before + [user]
            && toMouth.None?
            && toWeb == Some(ChatFrame("system", errorPrefix + chat[attempts - 1].error)))
    }

    /** The shared tail of the text and audio handlers, once the user entry is in the context. */
    method Answer(chat: seq<LlmOutcome>, errorPrefix: string) returns (toMouth: Option<Dict>, toWeb: Option<Dict>)
      requires |chat| >= MaxRetries && |context| >= 1
      modifies this`context
      ensures Answered(old(context[..|context| - 1]), old(context[|context| - 1]), chat, errorPrefix, context, toMouth, toWeb)
    {
      ghost var before := context[..|context| - 1];
      ghost var user := context[|context| - 1];
      assert context == before + [user];
      var result, attempts := ChatWithRetry(chat);
      if result.Reply? {
        context := context + [Turn("assistant", result.text)];
        toMouth := Some(McpProtocol.TextDict(agentId, "mouth", result.text));
        toWeb := Some(ChatFrame("brain", result.text));
      } else {
        toMouth := None;
        toWeb := Some(ChatFrame("system", errorPrefix + result.error));
      }
    }

    /**
     * An audio message, already transcribed: an empty text is ignored;
     * otherwise it is handled like a text message, marked as voice input.
     */
    method HandleAudioMessage(message: Dict, chat: seq<LlmOutcome>)
      returns (toMouth: Option<Dict>, toWeb: Option<Dict>)
      requires |chat| >= MaxRetries
      modifies this`context
      ensures TextInput(message).None? || TextInput(message) == Some("") ==>
        context == old(context) && toMouth.None? && toWeb.None?
      ensures TextInput(message).Some? && TextInput(message).value != "" ==>
        Answered(old(context), Turn("user", VoicePrefix + TextInput(message).value), chat, AudioErrorPrefix,
                 context, toMouth, toWeb)
    {
      var input := TextInput(message);
      if input.None? || input.value == "" {
        return None, None;
      }
      context := context + [Turn("user", VoicePrefix + input.value)];
      toMouth, toWeb := Answer(chat, AudioErrorPrefix);
    }

    /**
     * An image message with non-empty image data: the analysis (from the
     * model when it can see, a fixed sentence otherwise, another fixed
     * sentence when the model fails) is recorded as a system entry; the
     * greeting prompt is a follow-up when the recent window, taken before
     * that entry, holds dialogue; a greeting reply joins the context and goes
     * to the mouth agent and the web page, a failed one is dropped.
     */
    method HandleImageMessage(message: Dict, analysisOutcome: LlmOutcome, greetingOutcome: LlmOutcome)
      returns (prompt: Option<GreetingPrompt>, toMouth: Option<Dict>, toWeb: Option<Dict>)
      modifies this`context
      ensures ImageInputOf(message).None? || ImageInputOf(message).value.imageData == "" ==>
        context == old(context) && prompt.None? && toMouth.None? && toWeb.None?
      ensures ImageInputOf(message).Some? && ImageInputOf(message).value.imageData != "" ==>
        var input := ImageInputOf(message).value;
        var analysis := Analysis(multimodalSupport, analysisOutcome);
        var note := Turn("system", VisionNote(input.personName, analysis));
        && prompt == Some(if Window(old(context)) != [] then FollowUp(PersonInfo(input.personName), analysis)
                          else FirstGreeting(PersonInfo(input.personName), analysis))
        && (greetingOutcome.Reply? ==>
              && context == old(context) + [note, Turn("assistant", greetingOutcome.text)]
              && toMouth == Some(McpProtocol.TextDict(agentId, "mouth", greetingOutcome.text))
              && toWeb == Some(ChatFrame("brain", greetingOutcome.text)))
        && (greetingOutcome.Raised? ==> context == old(context) + [note] && toMouth.None? && toWeb.None?)
    {
      var input := ImageInputOf(message);
      if input.None? || input.value.imageData == "" {
        return None, None, None;
      }
      var personName := input.value.personName;
      var analysis := Analysis(multimodalSupport, analysisOutcome);
      var recent := RecentContext();
      context := context + [Turn("system", VisionNote(personName, analysis))];
      prompt := Some(if recent != [] then FollowUp(PersonInfo(personName), analysis)
                     else FirstGreeting(PersonInfo(personName), analysis));
      if greetingOutcome.Raised? {
        return prompt, None, None;
      }
      context := context + [Turn("assistant", greetingOutcome.text)];
      toMouth := Some(McpProtocol.TextDict(agentId, "mouth", greetingOutcome.text));
      toWeb := Some(ChatFrame("brain", greetingOutcome.text));
    }

    /** The analysis of an image: the model's answer, or a fixed sentence. */
    static function Analysis(multimodalSupport: bool, outcome: LlmOutcome): (r: string)
      ensures !multimodalSupport ==> r == NoMultimodalAnalysis
      ensures multimodalSupport && outcome.Reply? ==> r == outcome.text
      ensures multimodalSupport && outcome.Raised? ==> r == FailedAnalysis
    {
      if !multimodalSupport then NoMultimodalAnalysis
      else if outcome.Reply? then outcome.text
      else FailedAnalysis
    }
  }
}
