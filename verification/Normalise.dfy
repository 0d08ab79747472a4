/**
 Message normalisation: how the messages of a chat request become the plaintext message
 list sent upstream (steps 1 to 5 of building the request body).
 */
module Normalise {
  import opened Wrappers
  import opened Json
  import opened Text

  type Parse = string -> Option<Value>

  datatype ToolCall = ToolCall(id: string, name: string, arguments: string)

  /** A message as the client sends it; the content is raw JSON text, "" when absent. */
  datatype Message = Message(role: string, content: string, toolCalls: seq<ToolCall>, toolCallId: string, model: string)

  /** A message reduced to a role and texts. */
  datatype Norm = Norm(role: string, texts: seq<string>, model: string)

  datatype Block = Block(text: string, cached: bool)

  /** A message in the form the upstream application expects. */
  datatype AppMessage = AppMessage(role: string, blocks: seq<Block>, model: Option<string>)

  // ----- Content -----

  function PartTexts(items: seq<Value>): Option<seq<string>>
    decreases |items|
  {
    if items == [] then Some([])
    else
      match AsObject(Some(items[0]))
      case None => None
      case Some(part) =>
        match PartTexts(items[1..])
        case None => None
        case Some(rest) =>
          var text, typ := AsString(Field(part, "text")), AsString(Field(part, "type"));
          Some((if text != "" then [text]
                else if typ == "image_url" || typ == "image" then ["[image omitted]"] else []) + rest)
  }

  /** The text fragments of a content: a string, or the text parts of an array. */
  function TextOfContent(parse: Parse, raw: string): seq<string> {
    if raw == "" then []
    else
      match parse(raw)
      case Some(JStr(s)) => if s == "" then [] else [s]
      case Some(JArr(items)) =>
        (match PartTexts(items)
         case Some(texts) => texts
         case None => [])
      case _ => []
  }

  /** The content as one string: a JSON string as it is, null as "", anything else as its JSON text. */
  function ContentString(parse: Parse, raw: string): string {
    if raw == "" then ""
    else
      match parse(raw)
      case Some(JStr(s)) => s
      case Some(JNull) => ""
      case _ => raw
  }

  // ----- The steps -----

  predicate IsSystem(m: Message) {
    m.role == "system"
  }

  /** The messages that are not system messages, in order. */
  function Conversation(msgs: seq<Message>): seq<Message> {
    if msgs == [] then []
    else Conversation(msgs[..|msgs| - 1]) + if IsSystem(msgs[|msgs| - 1]) then [] else [msgs[|msgs| - 1]]
  }

  function OneText(text: string): seq<string> {
    if text == "" then [] else [text]
  }

  /** The non-empty texts of the system messages, in order. */
  function SystemTexts(parse: Parse, msgs: seq<Message>): seq<string> {
    if msgs == [] then []
    else
      var m := msgs[|msgs| - 1];
      SystemTexts(parse, msgs[..|msgs| - 1])
      + if IsSystem(m) then OneText(ContentString(parse, m.content)) else []
  }

  /** All system texts: the explicit one first, unless it is blank. */
  function SystemParts(parse: Parse, system: string, msgs: seq<Message>): seq<string> {
    (if TrimSpace(system) != "" then [system] else []) + SystemTexts(parse, msgs)
  }

  function AddCalls(names: map<string, string>, calls: seq<ToolCall>): map<string, string> {
    if calls == [] then names
    else
      var c := calls[|calls| - 1];
      var before := AddCalls(names, calls[..|calls| - 1]);
      if c.id == "" then before else before[c.id := c.name]
  }

  /** Which tool each call id belongs to; a later call with the same id wins. */
  function CallNames(convo: seq<Message>): map<string, string> {
    if convo == [] then map[]
    else AddCalls(CallNames(convo[..|convo| - 1]), convo[|convo| - 1].toolCalls)
  }

  function CallLine(c: ToolCall): string {
    "[tool_call " + c.name + "] " + if c.arguments == "" then "{}" else c.arguments
  }

  function CallLines(calls: seq<ToolCall>): seq<string> {
    seq(|calls|, k requires 0 <= k < |calls| => CallLine(calls[k]))
  }

  function ResultHead(names: map<string, string>, id: string): string {
    if id in names && names[id] != "" then "[tool_result " + names[id] + "]\n" else "[tool_result]\n"
  }

  /** One message of the conversation, as role and texts. */
  function NormOf(parse: Parse, names: map<string, string>, m: Message): Norm {
    if m.role == "assistant" then
      var base := Join(TextOfContent(parse, m.content), "\n");
      Norm("assistant", [Join((if base == "" then [] else [base]) + CallLines(m.toolCalls), "\n")], m.model)
    else if m.role == "tool" then
      Norm("user", [ResultHead(names, m.toolCallId) + ContentString(parse, m.content)], "")
    else Norm(m.role, TextOfContent(parse, m.content), "")
  }

  function NormsOf(parse: Parse, names: map<string, string>, convo: seq<Message>): seq<Norm> {
    seq(|convo|, k requires 0 <= k < |convo| => NormOf(parse, names, convo[k]))
  }

  function SystemBlock(parts: seq<string>): string {
    "<system>\n" + Join(parts, "\n\n") + "\n</system>"
  }

  /** The system texts go into the leading user message, or become one. */
  function Folded(parts: seq<string>, norms: seq<Norm>): seq<Norm> {
    var folded :=
      if parts == [] then norms
      else if norms != [] && norms[0].role == "user" then
        [norms[0].(texts := [SystemBlock(parts) + "\n\n" + Join(norms[0].texts, "\n")])] + norms[1..]
      else [Norm("user", [SystemBlock(parts)], "")] + norms;
    if folded == [] then [Norm("user", ["Hello"], "")] else folded
  }

  function Blocks(stamp: string, texts: seq<string>, last: bool): seq<Block> {
    seq(|texts| + 1, k requires 0 <= k <= |texts| =>
      Block(if k == 0 then stamp else texts[k - 1], last && k == |texts|))
  }

  /** The application form; `stamp` is the timestamp block that leads every message. */
  function AppOf(stamp: string, model: string, n: Norm, last: bool): AppMessage {
    var m := if n.role == "assistant" && n.model == "" then model else n.model;
    AppMessage(n.role, Blocks(stamp, n.texts, last), if n.role == "assistant" && m != "" then Some(m) else None)
  }

  function AppMessages(stamp: string, model: string, norms: seq<Norm>): seq<AppMessage> {
    seq(|norms|, k requires 0 <= k < |norms| => AppOf(stamp, model, norms[k], k == |norms| - 1))
  }

  /** The whole normalisation. */
  function MessagesFor(parse: Parse, system: string, msgs: seq<Message>, model: string,
                       stamp: string): seq<AppMessage> {
    var convo := Conversation(msgs);
    AppMessages(stamp, model, Folded(SystemParts(parse, system, msgs), NormsOf(parse, CallNames(convo), convo)))
  }

  // ----- The code -----

  method Partition(parse: Parse, system: string, msgs: seq<Message>)
      returns (sysParts: seq<string>, convo: seq<Message>)
    ensures sysParts == SystemParts(parse, system, msgs) && convo == Conversation(msgs)
  {
    sysParts, convo := [], [];
    hide ContentString, TrimSpace;
    if TrimSpace(system) != "" {
      sysParts := sysParts + [system];
    }
    for k := 0 to |msgs|
      invariant sysParts == SystemParts(parse, system, msgs[..k]) && convo == Conversation(msgs[..k])
    {
      assert msgs[..k + 1][..k] == msgs[..k];
      var m := msgs[k];
      if m.role == "system" {
        var s := ContentString(parse, m.content);
        if s != "" {
          sysParts := sysParts + [s];
        }
        continue;
      }
      convo := convo + [m];
    }
    assert msgs[..|msgs|] == msgs;
  }

  method NameCalls(convo: seq<Message>) returns (names: map<string, string>)
    ensures names == CallNames(convo)
  {
    names := map[];
    for k := 0 to |convo|
      invariant names == CallNames(convo[..k])
    {
      assert convo[..k + 1][..k] == convo[..k];
      var calls := convo[k].toolCalls;
      ghost var before := names;
      for j := 0 to |calls|
        invariant names == AddCalls(before, calls[..j])
      {
        assert calls[..j + 1][..j] == calls[..j];
        if calls[j].id != "" {
          names := names[calls[j].id := calls[j].name];
        }
      }
      assert calls[..|calls|] == calls;
    }
    assert convo[..|convo|] == convo;
  }

  method NormaliseOne(parse: Parse, names: map<string, string>, m: Message) returns (n: Norm)
    ensures n == NormOf(parse, names, m)
  {
    if m.role == "assistant" {
      var base := Join(TextOfContent(parse, m.content), "\n");
      var buf: seq<string> := [];
      if base != "" {
        buf := buf + [base];
      }
      ghost var head := buf;
      for j := 0 to |m.toolCalls|
        invariant buf == head + CallLines(m.toolCalls)[..j]
      {
        var args := m.toolCalls[j].arguments;
        if args == "" {
          args := "{}";
        }
        buf := buf + ["[tool_call " + m.toolCalls[j].name + "] " + args];
      }
      assert buf == head + CallLines(m.toolCalls);
      n := Norm("assistant", [Join(buf, "\n")], m.model);
    } else if m.role == "tool" {
      var head := "[tool_result]\n";
      if m.toolCallId in names && names[m.toolCallId] != "" {
        head := "[tool_result " + names[m.toolCallId] + "]\n";
      }
      n := Norm("user", [head + ContentString(parse, m.content)], "");
    } else {
      n := Norm(m.role, TextOfContent(parse, m.content), "");
    }
  }

  method AppMsg(role: string, texts: seq<string>, model: string, last: bool, stamp: string) returns (m: AppMessage)
    ensures m == AppMessage(role, Blocks(stamp, texts, last), if role == "assistant" && model != "" then Some(model)
                            else None)
  {
    var blocks := [Block(stamp, false)];
    for k := 0 to |texts|
      invariant |blocks| == k + 1
      invariant forall j :: 0 <= j <= k ==> blocks[j] == Block(if j == 0 then stamp else texts[j - 1], false)
    {
      blocks := blocks + [Block(texts[k], false)];
    }
    if last && |blocks| > 0 {
      blocks := blocks[|blocks| - 1 := blocks[|blocks| - 1].(cached := true)];
    }
    m := AppMessage(role, blocks, None);
    if role == "assistant" && model != "" {
      m := m.(model := Some(model));
    }
  }

  /** Step 4: the system texts go in front. */
  method FoldSystem(sysParts: seq<string>, norms: seq<Norm>) returns (normed: seq<Norm>)
    ensures normed == Folded(sysParts, norms)
  {
    normed := norms;
    if |sysParts| > 0 {
      var block := "<system>\n" + Join(sysParts, "\n\n") + "\n</system>";
      if |normed| > 0 && normed[0].role == "user" {
        var joined := Join(normed[0].texts, "\n");
        normed := [normed[0].(texts := [block + "\n\n" + joined])] + normed[1..];
      } else {
        normed := [Norm("user", [block], "")] + normed;
      }
    }
    if |normed| == 0 {
      normed := [Norm("user", ["Hello"], "")];
    }
  }

  /** Step 5: the application form. */
  method Convert(stamp: string, model: string, normed: seq<Norm>) returns (out: seq<AppMessage>)
    ensures out == AppMessages(stamp, model, normed)
  {
    hide Blocks;
    out := [];
    for k := 0 to |normed|
      invariant out == AppMessages(stamp, model, normed)[..k]
    {
      var mdl := normed[k].model;
      if normed[k].role == "assistant" && mdl == "" {
        mdl := model;
      }
      var m := AppMsg(normed[k].role, normed[k].texts, mdl, k == |normed| - 1, stamp);
      assert m == AppOf(stamp, model, normed[k], k == |normed| - 1);
      out := out + [m];
    }
  }

  /** Steps 1 to 5: partition, name the calls, reduce, fold the system texts, convert. */
  method BuildMessages(parse: Parse, system: string, msgs: seq<Message>, model: string, stamp: string)
    returns (out: seq<AppMessage>)
    ensures out == MessagesFor(parse, system, msgs, model, stamp)
  {
    hide NormOf, CallNames, Conversation, SystemParts, Folded, AppMessages;
    var sysParts, convo := Partition(parse, system, msgs);
    var names := NameCalls(convo);
    var normed: seq<Norm> := [];
    for k := 0 to |convo|
      invariant normed == NormsOf(parse, names, convo)[..k]
    {
      var n := NormaliseOne(parse, names, convo[k]);
      normed := normed + [n];
    }
    assert normed == NormsOf(parse, names, convo);
    normed := FoldSystem(sysParts, normed);
    out := Convert(stamp, model, normed);
  }

  // ----- Properties -----

  /** The system messages, in order. */
  function Systems(msgs: seq<Message>): seq<Message> {
    if msgs == [] then []
    else Systems(msgs[..|msgs| - 1]) + if IsSystem(msgs[|msgs| - 1]) then [msgs[|msgs| - 1]] else []
  }

  lemma {:induction false} TextsOfSystems(parse: Parse, msgs: seq<Message>)
    ensures SystemTexts(parse, msgs) == SystemTexts(parse, Systems(msgs))
  {
    hide ContentString;
    if msgs != [] {
      var n := |msgs| - 1;
      TextsOfSystems(parse, msgs[..n]);
      assert (Systems(msgs[..n]) + [msgs[n]])[..|Systems(msgs[..n])|] == Systems(msgs[..n]);
      assert Systems(msgs[..n]) + [] == Systems(msgs[..n]);
    }
  }

  /**
   Where the system messages stand among the others does not matter: two requests with the
   same system messages in the same order and the same other messages in the same order
   are sent alike.
   */
  lemma SystemMessagesMove(parse: Parse, system: string, a: seq<Message>, b: seq<Message>, model: string, stamp: string)
    requires Systems(a) == Systems(b) && Conversation(a) == Conversation(b)
    ensures MessagesFor(parse, system, a, model, stamp) == MessagesFor(parse, system, b, model, stamp)
  {
    TextsOfSystems(parse, a);
    TextsOfSystems(parse, b);
    hide Systems, Conversation, SystemTexts, NormsOf, AppMessages, CallNames, Folded, TrimSpace;
  }

  /** How many messages the folding puts in front of the conversation. */
  function Inserted(parts: seq<string>, norms: seq<Norm>): nat {
    if parts != [] && (norms == [] || norms[0].role != "user") then 1 else 0
  }

  /**
   The conversation is sent whole and in order: apart from one message put in front, or
   the greeting that stands for an empty request, there is one message for each, with its
   role (a tool result as a user message) and its texts (the first one with the system
   texts in front).
   */
  lemma ConversationKept(parse: Parse, system: string, msgs: seq<Message>, model: string, stamp: string)
    ensures var convo, parts := Conversation(msgs), SystemParts(parse, system, msgs);
            var norms := NormsOf(parse, CallNames(convo), convo);
            var out, shift := MessagesFor(parse, system, msgs, model, stamp), Inserted(parts, norms);
      && |out| == (if convo == [] && parts == [] then 1 else |convo| + shift)
      && forall k :: 0 <= k < |convo| ==>
           && out[k + shift].role == (if convo[k].role == "tool" then "user" else convo[k].role)
           && (k + shift > 0 || parts == [] ==>
                 out[k + shift].blocks == Blocks(stamp, norms[k].texts, k == |convo| - 1))
  {
    hide Conversation, SystemParts, CallNames, Blocks, SystemBlock, NormsOf;
    var convo, parts := Conversation(msgs), SystemParts(parse, system, msgs);
    var names := CallNames(convo);
    var norms := NormsOf(parse, names, convo);
    NormRoles(parse, names, convo);
    FoldedKeeps(parts, norms);
    hide Folded;
  }

  lemma NormRoles(parse: Parse, names: map<string, string>, convo: seq<Message>)
    ensures var norms := NormsOf(parse, names, convo);
      && |norms| == |convo|
      && forall k :: 0 <= k < |convo| ==> norms[k].role == if convo[k].role == "tool" then "user" else convo[k].role
  {
    hide TextOfContent, ContentString, ResultHead, CallLines;
  }

  /** Folding puts at most one message in front and touches at most the first text list. */
  lemma FoldedKeeps(parts: seq<string>, norms: seq<Norm>)
    ensures var folded, shift := Folded(parts, norms), Inserted(parts, norms);
      && |folded| == (if norms == [] && parts == [] then 1 else |norms| + shift)
      && forall k :: 0 <= k < |norms| ==>
           && folded[k + shift].role == norms[k].role
           && (k + shift > 0 || parts == [] ==> folded[k + shift] == norms[k])
  {
    hide SystemBlock;
    var folded := Folded(parts, norms);
    if parts == [] {
      assert norms != [] ==> folded == norms;
    } else if norms != [] && norms[0].role == "user" {
      assert folded[1..] == norms[1..];
      assert forall k :: 1 <= k < |norms| ==> folded[k] == folded[1..][k - 1];
    } else {
      assert folded[1..] == norms;
      assert forall k :: 0 <= k < |norms| ==> folded[k + 1] == folded[1..][k];
    }
  }

  /** Whenever there are system texts, they all stand in order in the text of a leading user message. */
  lemma SystemLeads(parse: Parse, system: string, msgs: seq<Message>, model: string, stamp: string)
    requires SystemParts(parse, system, msgs) != []
    ensures var out := MessagesFor(parse, system, msgs, model, stamp);
      && out != [] && out[0].role == "user" && |out[0].blocks| == 2
      && out[0].blocks[0].text == stamp
      && var convo, block := Conversation(msgs), SystemBlock(SystemParts(parse, system, msgs));
         var norms := NormsOf(parse, CallNames(convo), convo);
         out[0].blocks[1].text ==
           if norms != [] && norms[0].role == "user" then block + "\n\n" + Join(norms[0].texts, "\n") else block
  {
    hide Conversation, SystemParts, CallNames, SystemBlock, NormsOf;
  }

  /** Exactly one block is marked for caching: the last block of the last message. */
  lemma OneCacheMark(parse: Parse, system: string, msgs: seq<Message>, model: string, stamp: string)
    ensures var out := MessagesFor(parse, system, msgs, model, stamp);
      && out != []
      && forall i, j :: 0 <= i < |out| && 0 <= j < |out[i].blocks| ==>
           (out[i].blocks[j].cached <==> i == |out| - 1 && j == |out[i].blocks| - 1)
  {
    hide Conversation, SystemParts, CallNames, SystemBlock, NormsOf;
  }

  /** The last of the calls with this id. */
  predicate LastIn(calls: seq<ToolCall>, id: string, j: int) {
    && 0 <= j < |calls| && calls[j].id == id
    && forall i :: j < i < |calls| ==> calls[i].id != id
  }

  predicate NoneIn(calls: seq<ToolCall>, id: string) {
    forall j :: 0 <= j < |calls| ==> calls[j].id != id
  }

  /** `name` is what the last call with this id, anywhere in the conversation, was called. */
  ghost predicate LastCallNamed(convo: seq<Message>, id: string, name: string) {
    exists k, j :: LastCallAt(convo, id, k, j) && convo[k].toolCalls[j].name == name
  }

  ghost predicate LastCallAt(convo: seq<Message>, id: string, k: int, j: int) {
    && 0 <= k < |convo| && LastIn(convo[k].toolCalls, id, j)
    && forall l :: k < l < |convo| ==> NoneIn(convo[l].toolCalls, id)
  }

  lemma {:induction false} AddCallsAt(names: map<string, string>, calls: seq<ToolCall>, id: string) returns (j: int)
    requires id != ""
    ensures var after := AddCalls(names, calls);
      || (LastIn(calls, id, j) && id in after && after[id] == calls[j].name)
      || (NoneIn(calls, id) && (id in after <==> id in names) && (id in after ==> after[id] == names[id]))
  {
    j := -1;
    if calls != [] {
      var n := |calls| - 1;
      assert calls == calls[..n] + [calls[n]];
      if calls[n].id == id {
        j := n;
      } else {
        j := AddCallsAt(names, calls[..n], id);
      }
    }
  }

  /** A tool result is headed by the name of the last call with its id, if there is such a call. */
  lemma {:induction false} NamesLastCall(convo: seq<Message>, id: string)
    requires id != ""
    ensures id in CallNames(convo) ==> LastCallNamed(convo, id, CallNames(convo)[id])
    ensures id !in CallNames(convo) ==> forall k :: 0 <= k < |convo| ==> NoneIn(convo[k].toolCalls, id)
  {
    if convo != [] {
      var n := |convo| - 1;
      var before, calls := CallNames(convo[..n]), convo[n].toolCalls;
      NamesLastCall(convo[..n], id);
      var last := AddCallsAt(before, calls, id);
      assert CallNames(convo) == AddCalls(before, calls);
      hide AddCalls, CallNames;
      if LastIn(calls, id, last) {
        assert LastCallAt(convo, id, n, last);
      } else if id in before {
        var k, j :| LastCallAt(convo[..n], id, k, j) && convo[..n][k].toolCalls[j].name == before[id];
        assert LastCallAt(convo, id, k, j);
      }
    }
  }

  lemma LastCallUnique(convo: seq<Message>, id: string, name: string, other: string)
    requires LastCallNamed(convo, id, name) && LastCallNamed(convo, id, other)
    ensures name == other
  {
    var k, j :| LastCallAt(convo, id, k, j) && convo[k].toolCalls[j].name == name;
    var l, i :| LastCallAt(convo, id, l, i) && convo[l].toolCalls[i].name == other;
    assert convo[k].toolCalls[j].id == id && convo[l].toolCalls[i].id == id;
  }

  lemma {:induction false} NoCallUnnamed(convo: seq<Message>)
    ensures "" !in CallNames(convo)
  {
    if convo != [] {
      NoCallUnnamed(convo[..|convo| - 1]);
      AddCallsUnnamed(CallNames(convo[..|convo| - 1]), convo[|convo| - 1].toolCalls);
    }
  }

  lemma {:induction false} AddCallsUnnamed(names: map<string, string>, calls: seq<ToolCall>)
    requires "" !in names
    ensures "" !in AddCalls(names, calls)
  {
    if calls != [] {
      AddCallsUnnamed(names, calls[..|calls| - 1]);
    }
  }

  /** `text` answers the call `id`: it is headed by the name of the last call with that id, if that has one. */
  ghost predicate AnswersCall(convo: seq<Message>, id: string, content: string, text: string) {
    if exists name :: id != "" && name != "" && LastCallNamed(convo, id, name) then
      exists name :: LastCallNamed(convo, id, name) && text == "[tool_result " + name + "]\n" + content
    else text == "[tool_result]\n" + content
  }

  lemma HeadAnswersCall(convo: seq<Message>, id: string, content: string)
    ensures AnswersCall(convo, id, content, ResultHead(CallNames(convo), id) + content)
  {
    var names := CallNames(convo);
    NoCallUnnamed(convo);
    if id != "" {
      NamesLastCall(convo, id);
    }
    hide CallNames;
    forall name | id != "" && LastCallNamed(convo, id, name) ensures id in names && name == names[id] {
      var k, j :| LastCallAt(convo, id, k, j) && convo[k].toolCalls[j].name == name;
      if id in names {
        LastCallUnique(convo, id, name, names[id]);
      }
    }
    hide LastCallNamed;
  }

  /** The message carries `front` and then the answer to the call `id`. */
  ghost predicate SendsResult(m: AppMessage, front: string, convo: seq<Message>, id: string, content: string) {
    && m.role == "user" && |m.blocks| == 2
    && exists text :: m.blocks[1].text == front + text && AnswersCall(convo, id, content, text)
  }

  lemma SentText(stamp: string, model: string, folded: seq<Norm>, n: nat, whole: string)
    requires n < |folded| && folded[n] == Norm("user", [whole], "")
    ensures |AppMessages(stamp, model, folded)| == |folded|
    ensures var m := AppMessages(stamp, model, folded)[n];
            m.role == "user" && |m.blocks| == 2 && m.blocks[1].text == whole
  {
  }

  /** What stands in front of the `k`-th message of the conversation if it is of the user's. */
  function Front(parts: seq<string>, k: nat): string {
    if k == 0 && parts != [] then SystemBlock(parts) + "\n\n" else ""
  }

  /**
   In the message list that is sent, a tool result is a user message with one text, headed
   by the name of the last call with its id; only if it is the very first message do the
   system texts stand in front of it.
   */
  lemma ToolResultNamed(parse: Parse, system: string, msgs: seq<Message>, model: string, stamp: string, k: nat)
    requires k < |Conversation(msgs)| && Conversation(msgs)[k].role == "tool"
    ensures var convo, parts := Conversation(msgs), SystemParts(parse, system, msgs);
            var n := k + Inserted(parts, NormsOf(parse, CallNames(convo), convo));
      && n < |MessagesFor(parse, system, msgs, model, stamp)|
      && SendsResult(MessagesFor(parse, system, msgs, model, stamp)[n], Front(parts, k), convo,
                     convo[k].toolCallId, ContentString(parse, convo[k].content))
  {
    hide *;
    var convo, parts := Conversation(msgs), SystemParts(parse, system, msgs);
    var m, norms := convo[k], NormsOf(parse, CallNames(convo), convo);
    var text := ResultHead(CallNames(convo), m.toolCallId) + ContentString(parse, m.content);
    HeadAnswersCall(convo, m.toolCallId, ContentString(parse, m.content));
    ToolNorm(parse, CallNames(convo), convo, k);
    ToolNormSent(parts, norms, k, text);
    SentText(stamp, model, Folded(parts, norms), k + Inserted(parts, norms), Front(parts, k) + text);
    MessagesUnfold(parse, system, msgs, model, stamp);
    SendsResultIntro(AppMessages(stamp, model, Folded(parts, norms))[k + Inserted(parts, norms)], Front(parts, k),
                     convo,
                     m.toolCallId, ContentString(parse, m.content), text);
  }

  lemma SendsResultIntro(m: AppMessage, front: string, convo: seq<Message>, id: string, content: string, text: string)
    requires m.role == "user" && |m.blocks| == 2 && m.blocks[1].text == front + text
        && AnswersCall(convo, id, content, text)
    ensures SendsResult(m, front, convo, id, content)
  {
  }

  lemma MessagesUnfold(parse: Parse, system: string, msgs: seq<Message>, model: string, stamp: string)
    ensures MessagesFor(parse, system, msgs, model, stamp) ==
            AppMessages(stamp, model, Folded(SystemParts(parse, system, msgs),
                                             NormsOf(parse, CallNames(Conversation(msgs)), Conversation(msgs))))
  {
  }

  lemma ToolNorm(parse: Parse, names: map<string, string>, convo: seq<Message>, k: nat)
    requires k < |convo| && convo[k].role == "tool"
    ensures |NormsOf(parse, names, convo)| == |convo|
    ensures NormsOf(parse, names, convo)[k] ==
            Norm("user", [ResultHead(names, convo[k].toolCallId) + ContentString(parse, convo[k].content)], "")
  {
  }

  lemma ToolNormSent(parts: seq<string>, norms: seq<Norm>, k: nat, text: string)
    requires k < |norms| && norms[k] == Norm("user", [text], "")
    ensures var folded, shift := Folded(parts, norms), Inserted(parts, norms);
            k + shift < |folded| && folded[k + shift] == Norm("user", [Front(parts, k) + text], "")
  {
    FoldedKeeps(parts, norms);
    hide SystemBlock;
    assert Join([text], "\n") == text;
    assert "" + text == text;
  }
}
