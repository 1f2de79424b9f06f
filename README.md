# McpAgentRobot core, modelled in Dafny

McpAgentRobot is a small robot built from cooperating agents that talk over
websockets using a JSON message envelope it calls MCP:

- a **brain** that keeps the conversation and asks a language model for replies;
- an **eye** that recognises faces, greets people and sends frames for analysis;
- a **mouth** that queues text for speech;
- a **web dashboard** that shows everything and forwards typed chat to the brain;
- a **platform** that starts and stops the agents.

This project models the logic of those parts. The outside world arrives as
parameters of each operation:

- the clock;
- fresh message ids;
- the outcome of each connection attempt and each socket write;
- whether a server can listen, and whether each agent starts and stops;
- the language model's replies or exceptions;
- the similarity between two face encodings;
- the random names given to new faces.

## Layout

| file | module | what it holds |
|---|---|---|
| `wrappers.dfy` | `Wrappers` | `Option` and `Result` |
| `json_value.dfy` | `JsonValue` | JSON values and dictionaries, and key lookup with a default |
| `ordered_map.dfy` | `OrderedMap` | an insertion-ordered dictionary (a key sequence plus a map), used wherever the program iterates over a dict |
| `mcp_protocol.dfy` | `McpProtocol` | the message envelope, its subclasses, dictionary encoding and decoding, and the round trips between them |
| `base_agent.dfy` | `Agents` | the agent node: connection, handler and address registries; the handshake; dispatch; sending with on-demand connection; broadcast; disconnection |
| `person_database.dfy` | `Persons` | the person store and the best-match search |
| `eye_agent.dfy` | `Vision` | the recognition pass, the greeting cooldown, relative-time wording and the analysis throttle |
| `brain_agent.dfy` | `Brain` | the context, the retry around the model, the text/audio/image handlers and the recent-dialogue window |
| `mouth_agent.dfy` | `Speech` | the text to speak and the speech queue |
| `web_server.dfy` | `Dashboard` | page connections, broadcast with pruning, and the chat endpoint |
| `mcp_platform.dfy` | `Platform` | the ordered start and stop of the four agents |

Mutable objects are classes whose fields the methods update:

- `BaseAgent`, `PersonDatabase`, `EyeAgent`, `BrainAgent`, `MouthAgent`, `Server` and `AgentPlatform`.
- Every loop of the program that finishes within one operation is a `method` with its loop invariants. Each such method is proved against a specification function, for example `Brain.Window`, `Brain.AttemptsUsed`, `Platform.Leading`, `Platform.Register` or `Agents.AfterAttempts`.
- The three loops that run for the agent's whole life (inbound messages, the speech queue and the camera) are modelled one pass at a time; "## Left out" names the method for each.
- Pure helpers are functions; the relations between operations are lemmas.

Some behaviours of the program are kept as written, and the model proves them:

- **A failed connect can leave a connection behind.** A connection is registered before its "connected" announcement is written. A connect whose announcement fails therefore returns false and still leaves that connection registered. `Agents.StaleConnectionAfterFailedConnect` shows this.
- **Broadcast reuses one dictionary.** The node's broadcast hands the same dictionary to every send. The first send fills in the receiver, so every later peer gets a frame addressed to the first peer (see Findings).
- **A later face can match an earlier new face.** In one recognition pass, a face may match a person added for an earlier face of the same frame. It then takes that person's name, not a new random one. The guarantees about new faces are therefore stated for an id's first occurrence.
- **The greeting reads the count after the update.** It uses the seen count after the recognition pass has incremented it. A person seen once before is therefore greeted as someone met again.

## Model

| member | source | states |
|---|---|---|
| McpProtocol.NewMessage | src/utils/mcp_protocol.py:12-23 | the id is the given one when non-empty, otherwise the fresh one, so it is never empty; type, sender, receiver and content are kept; the timestamp is the creation time |
| McpProtocol.TextMessage | src/utils/mcp_protocol.py:59-69 | type "text", content exactly `{"text": text}`, sender and receiver kept |
| McpProtocol.ImageMessage | src/utils/mcp_protocol.py:79-94 | type "image"; content holds the image data and format, and `person_name` exactly when a name is given |
| McpProtocol.AudioMessage | src/utils/mcp_protocol.py:97-108 | type "audio"; content is exactly audio data and format |
| McpProtocol.CommandMessage | src/utils/mcp_protocol.py:111-122 | type "command"; content is the command and its params, which default to an empty object |
| McpProtocol.StatusMessage | src/utils/mcp_protocol.py:125-136 | type "status"; content is the status and its details, which default to an empty object |
| McpProtocol.ToDict | src/utils/mcp_protocol.py:25-35 | an envelope carries exactly id, type, sender, receiver, content, timestamp and the "MCP/1.0" tag; a text message carries only its four fields |
| McpProtocol.TextDict | src/utils/mcp_protocol.py:70-76 | the text dictionary has exactly sender, receiver, type "text" and content `{"text": text}` |
| McpProtocol.TextMessageToDict | src/utils/mcp_protocol.py:70-76 | a text message's dictionary depends only on sender, receiver and text, never on its id or timestamp |
| McpProtocol.StringField | src/utils/mcp_protocol.py:44-48 | a required field is read iff it is present and a string; a missing key is reported as missing |
| McpProtocol.OptionalId | src/utils/mcp_protocol.py:49 | an absent or null id means none given; a string id is taken as it is |
| McpProtocol.FromDict | src/utils/mcp_protocol.py:41-50 | decoding succeeds iff type, sender, receiver and content are present (and the id is absent, null or a string); a missing type fails first; the result is a base message stamped with the decoding time whose fields equal the dictionary's |
| McpProtocol.DecodeEncode | src/utils/mcp_protocol.py:25-50 | decoding the dictionary of any non-text message gives the same message back, as a base message with the decoding time |
| McpProtocol.DecodeTextEncode | src/utils/mcp_protocol.py:41-76 | decoding a text message's dictionary keeps type, sender, receiver and content but draws a fresh id |
| McpProtocol.EncodeDecode | src/utils/mcp_protocol.py:25-50 | encoding a decoded dictionary reproduces its four required fields and its non-empty id |
| McpProtocol.TextMessageDecodes | src/utils/mcp_protocol.py:41-76 | the dictionary of a text message decodes to a "text" message with the same text |
| Agents.DefaultAddress | src/agents/base_agent.py:42-47 | exactly brain, eye, ear and mouth have a default endpoint, all on localhost, ports 8010 to 8013 |
| Agents.FillAddresses | src/agents/base_agent.py:207-210 | a missing sender becomes this agent and a missing receiver becomes the target; present fields and all other fields are kept; no other key is added |
| Agents.FillAddressesIdempotent | src/agents/base_agent.py:207-210 | filling an already filled dictionary changes nothing, whatever addresses are offered |
| Agents.Fill | src/agents/base_agent.py:203-213 | a plain dictionary is completed exactly as `FillAddresses` says, with this agent and the target; envelopes and raw strings are sent as they are |
| Agents.FillIdempotent | src/agents/base_agent.py:203-213 | completing an outgoing message twice is completing it once |
| Agents.ClassifyFirst | src/agents/base_agent.py:138-143 | a first frame is an announcement iff it is an object of type "status" whose content status is "connected" and which names a string sender, and the announcer is that sender; any other type is invalid; a non-object is unreadable |
| Agents.AnnouncementAccepted | src/agents/base_agent.py:93-104 | the announcement a connecting node writes passes the acceptor's test and names the announcer |
| Agents.TextFirstFrameRejected | src/agents/base_agent.py:141 | a text message as the first frame is refused |
| Agents.DisconnectedSender | src/agents/base_agent.py:259-270 | a status message is a disconnection iff its content is an object whose status is "disconnected" and it names a string sender; that sender is the one removed |
| Agents.AfterAttempts | src/agents/base_agent.py:81-89 | the registry stays a well-formed ordered dictionary; after an attempt that opened a connection, the peer holds that connection |
| Agents.NoticeDisconnectsSender | src/agents/base_agent.py:286-297 | the courtesy notice, as sent, is read by the peer as a disconnection of its sender |
| Agents.AfterAttemptsOnlyPeer | src/agents/base_agent.py:81-89 | over any connect attempts, every other peer's presence and connection are unchanged; with every attempt refused the whole registry is unchanged |
| Agents.StaleConnectionAfterFailedConnect | src/agents/base_agent.py:84-104 | a connect where no attempt announces itself, but one opened, still leaves that connection registered for the peer |
| Agents.SharedBroadcastMisaddresses | src/agents/base_agent.py:273-279 | once the first send of a broadcast has filled in an unaddressed dictionary, a later peer's frame names the first peer as receiver, not itself |
| Agents.BaseAgent.constructor | src/agents/base_agent.py:18-29 | all three registries start empty and the node is not running |
| Agents.BaseAgent.Start | src/agents/base_agent.py:55-66 | the node is marked running; the start succeeds iff the server could listen, and only then are the text, command and status routines registered over whatever was there; a failed start leaves the handlers as they were |
| Agents.BaseAgent.Stop | src/agents/base_agent.py:68-74 | the node is no longer running |
| Agents.BaseAgent.RegisterHandler | src/agents/base_agent.py:242-245 | the type maps to the new handler; every other type's entry is untouched |
| Agents.BaseAgent.IsConnectedTo | src/agents/base_agent.py:322-324 | a peer is connected iff it has an entry in the connection registry, and so iff it is among the registry's ordered ids |
| Agents.BaseAgent.ConnectedAgents | src/agents/base_agent.py:318-320 | exactly the connected peers, without repetition |
| Agents.BaseAgent.GetAgentAddress | src/agents/base_agent.py:31-53 | lookup succeeds iff the peer is connected, learned or in the default table. A live connection comes first, then a learned address, then the default, and only a default hit is remembered |
| Agents.BaseAgent.LearnedAfterLookup | src/agents/base_agent.py:49-51 | a lookup never forgets a learned address; it adds one only for an unconnected, unlearned peer in the default table |
| Agents.BaseAgent.ConnectToAgent | src/agents/base_agent.py:76-114 | one to three attempts, with a pause between consecutive attempts only; success iff the last attempt announced itself, and no earlier one did; failure only after all three; the registry is the one `AfterAttempts` gives |
| Agents.BaseAgent.SendMessage | src/agents/base_agent.py:194-240 | an unknown receiver fails with nothing sent. A dictionary is completed. A connected receiver gets one write, whose result is returned. Otherwise the node connects, and the message is written iff the connect succeeds. The result is true iff a frame was written and the write succeeded |
| Agents.BaseAgent.ProcessMessage | src/agents/base_agent.py:177-192 | the handler registered for the message's type runs, iff there is one; only the status routine changes the registry, and only as `StatusEffect` says |
| Agents.BaseAgent.HandleStatusMessage | src/agents/base_agent.py:257-271 | a "disconnected" status removes its sender's connection; any other status changes nothing |
| Agents.BaseAgent.StatusEffect | src/agents/base_agent.py:268-270 | the registry loses exactly the disconnected sender, or nothing |
| Agents.BaseAgent.HandleConnection | src/agents/base_agent.py:134-175 | a valid announcement registers the connection under the announcer and is answered with "accepted". If the reply fails, the sweep removes the entry again. Any other first frame leaves the registry unchanged |
| Agents.BaseAgent.ConnectionClosed | src/agents/base_agent.py:167-173 | the first peer, in registry order, that holds the closed connection is removed and nothing else changes; without such a peer nothing changes |
| Agents.BaseAgent.BroadcastMessage | src/agents/base_agent.py:273-279 | one (peer, result) pair per connected peer in registry order; every frame is the message as filled for the first peer |
| Agents.BaseAgent.BroadcastEach | src/agents/base_agent.py:273-279 | corrected broadcast: each peer gets the message as filled for that peer, so an unaddressed dictionary is addressed to each peer in turn |
| Agents.BaseAgent.DisconnectFromAgent | src/agents/base_agent.py:281-307 | a connected peer is sent the notice, then closed and forgotten. The result is true iff it was connected and the close succeeded. A failed close keeps the entry |
| Agents.BaseAgent.DisconnectAll | src/agents/base_agent.py:309-316 | one result per peer of the snapshot, in order; exactly the peers whose close succeeded are gone; the rest keep their connections |
| Persons.Clamp | src/utils/person_database.py:371 | a similarity is clipped into [0, 1] and unchanged inside it |
| Persons.Updated | src/utils/person_database.py:142-154 | the record is seen once more at the given time and takes a new non-empty image; id, name, encoding and first sighting are kept |
| Persons.PersonDatabase.constructor | src/utils/person_database.py:15-19 | the store is empty and the next id is 1 |
| Persons.PersonDatabase.AddPerson | src/utils/person_database.py:96-128 | the new id is the counter, never used before; the counter moves on by one; the record is appended, seen once, first and last at now |
| Persons.PersonDatabase.UpdatePerson | src/utils/person_database.py:130-159 | an unknown id changes nothing. A known one gets `Updated` at the given time, or now. The order of records is kept |
| Persons.PersonDatabase.GetPerson | src/utils/person_database.py:251-260 | the stored record iff the id is known |
| Persons.PersonDatabase.GetAllPersons | src/utils/person_database.py:262-268 | exactly the stored ids, each with the record `GetPerson` gives for it |
| Persons.PersonDatabase.FindSimilarPerson | src/utils/person_database.py:161-249 | an empty store gives nothing. The result is nothing iff no record is acceptable (has an encoding, scores above zero and reaches the threshold). Otherwise the result is the best match: acceptable, with the highest score of all encoded records, and every earlier record in insertion order scoring strictly lower |
| Vision.NatToString | src/agents/eye_agent.py:172-179 | at least one character, all decimal digits; more than one digit iff the count is ten or more |
| Vision.ParseNatToString | src/agents/eye_agent.py:172-179 | the decimal rendering of a count reads back as that count |
| Vision.NatToStringInjective | src/agents/eye_agent.py:172-179 | different counts render differently |
| Vision.Trunc | src/agents/eye_agent.py:164 | truncation toward zero: the whole part of a non-negative time, within one below it |
| Vision.TimeInfo | src/agents/eye_agent.py:99 | "刚刚" within a minute, the formatted difference beyond it |
| Vision.HoursFromSeconds | src/agents/eye_agent.py:167-168 | whole minutes, then whole hours, are whole hours of the seconds |
| Vision.DaysFromSeconds | src/agents/eye_agent.py:168-169 | whole hours, then whole days, are whole days of the seconds |
| Vision.AgoOf | src/agents/eye_agent.py:154-179 | a count in minutes, hours or days is positive, a count in seconds is below sixty, and no count is negative for a non-negative difference |
| Vision.AgoOfUnits | src/agents/eye_agent.py:154-179 | days from 86400 whole seconds, hours from 3600, minutes from 60, else seconds; the count is the whole number of that unit |
| Vision.FormatTimeDiff | src/agents/eye_agent.py:154-179 | for the whole seconds n of the difference: days (n div 86400) with "天前" from a day on, hours (n div 3600) with "小时前" from an hour, minutes (n div 60) with "分钟前" from a minute, else n with "秒前"; the count is written in decimal |
| Vision.OverAMinuteNotSeconds | src/agents/eye_agent.py:99 | a visit over a minute ago is never worded in seconds and has a positive count |
| Vision.GreetingText | src/agents/eye_agent.py:210-219 | a first meeting (seen at most once) is welcomed; a later one is welcomed back; both name the person twice |
| Vision.GreetingDistinguishesFirstMeeting | src/agents/eye_agent.py:210-219 | for one name, two seen counts give the same greeting iff both are first meetings or both are not |
| Vision.VisionFrame | src/agents/eye_agent.py:240-243 | a "vision" frame with the annotated image, or the raw one when there is none |
| Vision.FaceStepsExtend | src/agents/eye_agent.py:84-127 | a pass that satisfies `FaceSteps` for its faces so far, followed by one more `FaceStep`, satisfies it for one more face |
| Vision.GrownStep | src/agents/eye_agent.py:87-127 | a face step keeps every earlier record with no lower seen count, keeps every id below the counter, and never lowers the counter |
| Vision.RecognisedStep | src/agents/eye_agent.py:87-127 | after a face step every id recognised so far, the new one included, is stored under its name, seen now |
| Vision.SeenCountsStep | src/agents/eye_agent.py:87-127 | after a face step each record's seen count is its count before the pass plus its number of occurrences among the ids so far |
| Vision.LatestImagesStep | src/agents/eye_agent.py:87-127 | after a face step each id keeps the non-empty image of its last face so far |
| Vision.NewcomersNamedStep | src/agents/eye_agent.py:113-127 | after a face step the first occurrence of each new id carries that face's random name and encoding |
| Vision.OnlyMetStep | src/agents/eye_agent.py:87-127 | after a face step every id between the old and the new counter was handed to a face of the pass, and records the pass did not meet are unchanged |
| Vision.PassSoFarEmpty | src/agents/eye_agent.py:84-86 | before any face, the pass guarantee `PassSoFar` holds of the unchanged store |
| Vision.PassStep | src/agents/eye_agent.py:84-127 | one more face, matched or added as `EntryStep` says, keeps the recognition pass guarantee `PassSoFar` |
| Vision.FirstFaceCount | src/agents/eye_agent.py:196-219 | after a pass, the first face's person has a seen count of at least two when already stored, and exactly one when new and met only once in the frame |
| Vision.EyeAgent.constructor | src/agents/eye_agent.py:20-36 | an empty store, nobody recognised, both clocks at zero |
| Vision.EyeAgent.RecognizeFace | src/agents/eye_agent.py:87-127 | exactly one `FaceStep`: the face matches a stored person iff some record is acceptable, and then the person is the best match, seen once more, now, with the face's image, under its own name, the counter kept; otherwise a record with the new name, the face's encoding and image, seen once, is added under the counter, which moves on by one |
| Vision.EyeAgent.RecognizeFaces | src/agents/eye_agent.py:84-127 | one id and name per face, each face a `FaceStep` against the store the faces before it left, the i-th face offered the i-th random name. Overall (`PassSoFar`): every id is stored under its name, seen now; each record's seen count went up by exactly its number of occurrences; each keeps the image of its last face; the first occurrence of a new id has the face's random name and encoding; ids handed out are exactly new ones; untouched records are unchanged |
| Vision.EyeAgent.SendGreetingIfNeeded | src/agents/eye_agent.py:181-223 | only the first person is considered. A greeting is due for a different person or after the cooldown; then the person and time are recorded. The greeting text is chosen by the stored seen count. Otherwise nothing changes |
| Vision.EyeAgent.ProcessFaceRecognition | src/agents/eye_agent.py:58-139 | no faces: the store, the id counter, the last person and the greeting time are unchanged and nothing is sent. Otherwise every face is recognised as `RecognizeFaces` states, and the first one is greeted when due: a person already stored is welcomed back, a newcomer met once in the frame is welcomed for the first time. When no greeting is due the last person and time are unchanged |
| Vision.EyeAgent.AnalysisTick | src/agents/eye_agent.py:245-267 | at most one image per ten seconds goes to the brain, as an image envelope naming the last recognised person when stored |
| Vision.EyeAgent.PersonNameOf | src/agents/eye_agent.py:251-255 | the last recognised person's name iff that person is stored |
| Brain.Dialogue | src/brain/brain_agent.py:164 | only user and assistant entries, never more than given |
| Brain.LastEntries | src/brain/brain_agent.py:163 | the last twenty entries, or all of them |
| Brain.Window | src/brain/brain_agent.py:161-167 | at most ten entries, all user or assistant |
| Brain.DialoguePrefix | src/brain/brain_agent.py:162-167 | the dialogue of a prefix is a prefix of the dialogue, so stopping the scan early keeps a prefix |
| Brain.DialogueMembers | src/brain/brain_agent.py:164-165 | an entry is kept iff it is in the scanned entries and is user or assistant |
| Brain.WindowComplete | src/brain/brain_agent.py:161-167 | with at most ten dialogue entries among the last twenty, the window holds all of them |
| Brain.WindowFromRecent | src/brain/brain_agent.py:163 | everything in the window is dialogue from the last twenty entries |
| Brain.ChatFrame | src/brain/brain_agent.py:86-92 | a "chat" frame with the sender and `{"text": text}` |
| Brain.TextInput | src/brain/brain_agent.py:43-44 | a message is readable iff it has an object content, a sender and a string text, absent meaning empty; the result is that text |
| Brain.ImageInputOf | src/brain/brain_agent.py:114-116 | a message is readable iff it has an object content, a sender, string image data (absent meaning empty) and a person name that is a string, null or absent; the result carries that image data, and a name iff the name is a non-empty string |
| Brain.ProcessTextMessage | src/brain/brain_agent.py:314-327 | the reply is the apology or begins with the acknowledgement prefix; a message without content is acknowledged with an empty text |
| Brain.AcknowledgedText | src/brain/brain_agent.py:322 | a canned reply is recognised iff it carries the acknowledgement prefix |
| Brain.ProcessTextMessageAcknowledges | src/brain/brain_agent.py:314-327 | every message with a text is acknowledged with exactly that text; any other gets the apology |
| Brain.AttemptsFrom | src/brain/brain_agent.py:52-69 | counting from call i, the calls made reach past i and never past the third |
| Brain.AttemptsUsed | src/brain/brain_agent.py:52-69 | between one and three calls |
| Brain.AttemptsFromFirstReply | src/brain/brain_agent.py:53-68 | the calls made are exactly those up to and including the first reply, or all three |
| Brain.ChatWithRetry | src/brain/brain_agent.py:52-69 | the result is the first reply within three calls, or the third call's exception; the number of calls is `AttemptsUsed` |
| Brain.BrainAgent.constructor | src/brain/brain_agent.py:25-28 | the context starts empty |
| Brain.BrainAgent.RecentContext | src/brain/brain_agent.py:161-167 | the scan returns exactly `Window` of the context |
| Brain.BrainAgent.HandleTextMessage | src/brain/brain_agent.py:40-109 | an unreadable message changes nothing. Otherwise the text joins the context as a user entry. A reply joins it as an assistant entry and goes to the mouth and the page. A final failure goes to the page as an error |
| Brain.BrainAgent.Answer | src/brain/brain_agent.py:50-106 | the reply path or the error path of a turn, as `Answered` states |
| Brain.BrainAgent.HandleAudioMessage | src/brain/brain_agent.py:238-312 | an empty or unreadable text changes nothing; otherwise it is a text turn marked as voice input, with the audio error wording |
| Brain.BrainAgent.HandleImageMessage | src/brain/brain_agent.py:111-236 | empty image data changes nothing. Otherwise the analysis is recorded as a system entry. The prompt is a follow-up iff the window before that entry holds dialogue. A greeting reply joins the context and goes to the mouth and the page; a failed one is dropped |
| Brain.BrainAgent.Analysis | src/brain/brain_agent.py:127-159 | the model's analysis when it can see and answers, a fixed failure sentence when it fails, a fixed sentence without vision |
| Speech.SpokenText | src/agents/mouth_agent.py:134-140 | the content's text when the content is an object with a text, else the content itself, else the message's own text or empty |
| Speech.Requester | src/agents/mouth_agent.py:142 | the sender, or "unknown" |
| Speech.SpeechFrame | src/agents/mouth_agent.py:147-151 | a "speech" frame with the text |
| Speech.SpeaksBrainReply | src/agents/mouth_agent.py:134-136 | a reply as the brain sends it is spoken word for word |
| Speech.MouthAgent.constructor | src/agents/mouth_agent.py:19 | the speech queue starts empty |
| Speech.MouthAgent.HandleTextMessage | src/agents/mouth_agent.py:129-157 | the text is shown on the page and queued behind everything already queued |
| Speech.MouthAgent.NextSpeech | src/agents/mouth_agent.py:84-102 | the oldest queued text is taken first; an empty queue gives nothing |
| Speech.MouthAgent.Stop | src/agents/mouth_agent.py:159-166 | stopping hands every queued text to speech, in queue order, and leaves the queue empty |
| Dashboard.Reshape | src/web/server.py:67-79 | a chat frame is forwarded iff it has an object content with a text, a sender and a receiver; the forwarded frame has exactly those with type "text" |
| Dashboard.ReshapeFeedsBrain | src/web/server.py:67-79 | a forwarded chat frame with a string text reaches the brain's text handler with that text |
| Dashboard.OutcomeOf | src/web/server.py:60-106 | non-chat frames are ignored. Without a brain an error notice is broadcast. A chat frame is forwarded iff it can be reshaped; otherwise it is malformed |
| Dashboard.Server.constructor | src/web/server.py:29 | no page connections |
| Dashboard.Server.BroadcastMessage | src/web/server.py:119-138 | no connections: false. Otherwise exactly the connections whose send succeeds remain, and the result is true iff one did |
| Dashboard.Server.Serve | src/web/server.py:46-117 | frames are handled in order until the first non-object, only if the greeting was sent; the connection is gone afterwards, whatever happened |
| Platform.Leading | src/platform/mcp_platform.py:18-48 | never more than the agents listed |
| Platform.LeadingIsFirstFailure | src/platform/mcp_platform.py:18-48 | the number of leading successes is the position of the first failure, or all of them |
| Platform.LeadingStep | src/platform/mcp_platform.py:18-48 | within the leading run, the next agent succeeds iff the run reaches past it |
| Platform.Register | src/platform/mcp_platform.py:21-41 | recording agents keeps the record a well-formed ordered dictionary |
| Platform.RegisterSnoc | src/platform/mcp_platform.py:21-41 | recording one more agent records it on top of the record so far |
| Platform.RegisterLastWins | src/platform/mcp_platform.py:21-41 | the agent recorded last under an id is the one the record holds for it |
| Platform.RegisterAppendsNew | src/platform/mcp_platform.py:21-41 | an agent whose id is not yet recorded goes to the end of the order |
| Platform.RegisterEntries | src/platform/mcp_platform.py:21-41 | an agent is recorded iff it was before or is started; a started agent sits under its id, the last one started under an id winning |
| Platform.RegisterOrder | src/platform/mcp_platform.py:21-41 | agents with new, distinct ids are recorded in start order after those already there |
| Platform.PortsAgreeWithDefaults | src/platform/mcp_platform.py:21-39 | every agent is started on the port the other agents dial to reach it |
| Platform.AgentPlatform.constructor | src/platform/mcp_platform.py:14-16 | no agent recorded |
| Platform.AgentPlatform.Start | src/platform/mcp_platform.py:18-42 | brain, ear, eye and mouth are started in that order. Each is recorded after its start returns. The first start that raises ends the operation and is reported, and it and the later agents are not recorded |
| Platform.AgentPlatform.StartEach | src/platform/mcp_platform.py:18-42 | the given agents are started and recorded in order up to the first whose start raises |
| Platform.AgentPlatform.Stop | src/platform/mcp_platform.py:44-48 | the recorded agents are stopped in recording order up to the first stop that raises, which is reported; the record is left as it is |
| Platform.FreshStartOrder | src/platform/mcp_platform.py:18-42 | on a fresh platform the agents that started are recorded in start order |

## Findings

| source | as written | input that shows it | evidently intended | confidence | as-written member | corrected member |
|---|---|---|---|---|---|---|
| src/agents/base_agent.py:273-279 | every send of a broadcast receives the same dictionary, and `send_message` fills in a missing `receiver_id` in place | a broadcast of `{}` to peers "eye" then "mouth": the frame written to "mouth" has receiver "eye" | each peer receives the message addressed to itself | medium, not executed | Agents.SharedBroadcastMisaddresses | Agents.BaseAgent.BroadcastEach |

`Agents.BaseAgent.BroadcastMessage` keeps the behaviour as written. Nothing
else in the model calls either broadcast.

## Left out

- JSON text encoding and decoding: frames are modelled at the dictionary level. A frame that fails to parse behaves like an unreadable one.
- Non-string values where the program needs a string are treated as malformed input: the model reports the message as unreadable or undecodable. Python would sometimes carry such a value on. This applies to `McpProtocol.FromDict`, the handshake's sender, `Brain.TextInput`, `Brain.ImageInputOf` and the canned reply. Falsy non-string person names in an image message are likewise rejected instead of ignored.
- Concurrency and scheduling: every handler runs to completion with no interleaving, and the sleeps are left out. Only the connect pauses are counted, by `ConnectToAgent`.
- The receive loop on outbound connections (src/agents/base_agent.py:116-132), including its reconnect: this is a background task with no result.
- The handlers registered by the roles run code of their own that is not modelled here: `ProcessMessage` reports which handler runs, and only the node's status routine acts on the registries. The brain's and mouth's handlers are modelled as their own methods.
- The brain, eye and mouth return what they would send (to another agent or to the page) instead of calling `send_message` and `broadcast_message`; sending itself is `Agents.BaseAgent.SendMessage` and `Dashboard.Server.BroadcastMessage`.
- The branch of `send_message` for a receiver without host and port cannot be reached: every address lookup yields either a live connection or a host and port.
- The handshake's failed reply is modelled as the connection having closed. The removal it then performs is stated exactly when no other peer already held that websocket, which is always the case for a new inbound connection.
- Face detection, face encodings and the cosine similarity arithmetic: the similarity is a parameter, and only its clamp into [0, 1] is modelled. Drawing the boxes and the camera are left out too.
- Persistence of the person store (loading and saving the JSON file): the store starts empty.
- The random name generator: new faces take their names from a parameter.
- The per-face description strings built during recognition: the greeting does not use them.
- The language model, speech synthesis and the microphone: their results are parameters. The prompts' exact wording is reduced to which prompt is chosen and what it mentions.
- The ear agent, configuration and program entry points are not part of this model.
- The loops that run for an agent's whole life are modelled one pass at a time, since they never return: the inbound message loop (src/agents/base_agent.py:161-163) is one call of `Agents.BaseAgent.ProcessMessage` per message; the speech consumer (src/agents/mouth_agent.py:86-102) is one call of `Speech.MouthAgent.NextSpeech` per queued text; the camera loop (src/agents/eye_agent.py:227-274) is one call of `Vision.EyeAgent.ProcessFaceRecognition` and `Vision.EyeAgent.AnalysisTick` per frame. The model states what each pass does, not the sequence of passes.
- `Platform.Register`: its own contract states only that the record stays well-formed; what it records, under which id and in which order is proved separately in `Platform.RegisterEntries`, `Platform.RegisterLastWins` and `Platform.RegisterOrder`, because those facts on the function itself make the start loop's proof too costly.
- `Agents.AfterAttempts`: its own contract states well-formedness and the peer's entry after an opened attempt; that no other entry changes is proved separately in `Agents.AfterAttemptsOnlyPeer`, for the same reason.
- `Vision.EyeAgent.RecognizeFaces`: stated for the first occurrence of each new id only, because a later face may match a person added earlier in the same pass.
- `Dashboard.Server.BroadcastMessage`: set iteration order is arbitrary in the program; the model states only the final set of connections.
- `Dashboard.Server.Serve`: the notice texts built from exception messages are not modelled (a malformed frame carries no text), and the broadcasts are reported as outcomes instead of being sent.
- `Persons.PersonDatabase.AddPerson`: first and last sighting come from a single clock reading.
- `Brain.ChatWithRetry` and `Agents.BaseAgent.ConnectToAgent` take the outcomes of all their attempts up front, so an attempt's outcome cannot depend on the time spent waiting.
