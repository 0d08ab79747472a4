/**
 What becomes of each message of a request, told by what the client wrote: its strings, the
 parts of its arrays, its tool calls.
 */
module Rendering {
  import opened Wrappers
  import opened Json
  import opened Text
  import opened Normalise

  // ----- What a content says -----

  /** The parts of an array that show something: their texts, and a note for an image. */
  predicate PartsSay(items: seq<Value>, texts: seq<string>)
    decreases |items|
  {
    if items == [] then texts == []
    else if !items[0].JObj? then PartsSay(items[1..], texts)
    else
      var part := items[0].fields;
      if "text" in part && part["text"].JStr? && part["text"].s != "" then
        texts != [] && texts[0] == part["text"].s && PartsSay(items[1..], texts[1..])
      else if "type" in part && part["type"] in {JStr("image_url"), JStr("image")} then
        texts != [] && texts[0] == "[image omitted]" && PartsSay(items[1..], texts[1..])
      else PartsSay(items[1..], texts)
  }

  /** An array is read part by part only if all of them are objects, or null. */
  predicate AllParts(items: seq<Value>) {
    forall k :: 0 <= k < |items| ==> items[k].JObj? || items[k].JNull?
  }

  /** A content says some texts: a string itself if it is not empty, an array the texts of its parts, all else none. */
  predicate ContentSays(parse: Parse, content: string, texts: seq<string>) {
    if content == "" then texts == []
    else
      match parse(content)
      case Some(JStr(s)) => if s == "" then texts == [] else texts == [s]
      case Some(JArr(items)) => if AllParts(items) then PartsSay(items, texts) else texts == []
      case _ => texts == []
  }

  /** A content read as one string. */
  predicate StringSays(parse: Parse, content: string, s: string) {
    if content == "" then s == ""
    else
      match parse(content)
      case Some(JStr(t)) => s == t
      case Some(JNull) => s == ""
      case _ => s == content
  }

  /** What one part shows. */
  function Shown(item: Value): seq<string> {
    if !item.JObj? then []
    else if "text" in item.fields && item.fields["text"].JStr? && item.fields["text"].s != "" then
        [item.fields["text"].s]
    else if "type" in item.fields && item.fields["type"] in {JStr("image_url"), JStr("image")} then ["[image omitted]"]
    else []
  }

  lemma PartCons(items: seq<Value>, rest: seq<string>)
    requires items != [] && (items[0].JObj? || items[0].JNull?) && PartTexts(items[1..]) == Some(rest)
    ensures PartTexts(items) == Some(Shown(items[0]) + rest)
  {
  }

  lemma SayCons(items: seq<Value>, texts: seq<string>)
    requires items != [] && PartsSay(items, texts)
    ensures |Shown(items[0])| <= |texts| && texts[..|Shown(items[0])|] == Shown(items[0])
    ensures PartsSay(items[1..], texts[|Shown(items[0])|..])
  {
    assert texts[0..] == texts;
  }

  lemma {:induction false} PartTextsSay(items: seq<Value>, texts: seq<string>)
    requires AllParts(items) && PartsSay(items, texts)
    ensures PartTexts(items) == Some(texts)
    decreases |items|
  {
    if items != [] {
      assert AllParts(items[1..]) && (items[0].JObj? || items[0].JNull?);
      var n := |Shown(items[0])|;
      SayCons(items, texts);
      hide PartTexts, PartsSay, Shown, AllParts;
      PartTextsSay(items[1..], texts[n..]);
      PartCons(items, texts[n..]);
      assert texts == texts[..n] + texts[n..];
    }
  }

  lemma {:induction false} NoPartTexts(items: seq<Value>)
    requires !AllParts(items)
    ensures PartTexts(items) == None
    decreases |items|
  {
    if items[0].JObj? || items[0].JNull? {
      assert !AllParts(items[1..]) by {
        var k :| 0 <= k < |items| && !(items[k].JObj? || items[k].JNull?);
        assert items[1..][k - 1] == items[k];
      }
      NoPartTexts(items[1..]);
    }
  }

  lemma ContentTexts(parse: Parse, content: string, texts: seq<string>)
    requires ContentSays(parse, content, texts)
    ensures TextOfContent(parse, content) == texts
  {
    if content != "" {
      match parse(content) {
        case Some(JArr(items)) =>
          if AllParts(items) {
            PartTextsSay(items, texts);
          } else {
            NoPartTexts(items);
          }
        case _ =>
      }
    }
    hide PartTexts, PartsSay;
  }

  lemma ContentStringSays(parse: Parse, content: string)
    ensures StringSays(parse, content, ContentString(parse, content))
  {
  }

  // ----- Where a message stands -----

  /** One message is put in front if there are system texts and the first message is not the user's. */
  function InFront(parts: seq<string>, convo: seq<Message>): nat {
    if parts != [] && (convo == [] || convo[0].role !in {"user", "tool"}) then 1 else 0
  }

  /** The system texts as they are sent. */
  function SystemText(parts: seq<string>): string {
    "<system>\n" + Join(parts, "\n\n") + "\n</system>"
  }

  lemma InsertedInFront(parse: Parse, parts: seq<string>, convo: seq<Message>)
    ensures Inserted(parts, NormsOf(parse, CallNames(convo), convo)) == InFront(parts, convo)
  {
    hide CallNames;
    NormRoles(parse, CallNames(convo), convo);
    if convo != [] {
      hide NormsOf;
    }
  }

  function BlockTexts(m: AppMessage): seq<string> {
    seq(|m.blocks|, k requires 0 <= k < |m.blocks| => m.blocks[k].text)
  }

  /** What folding leaves of the `k`-th message. */
  lemma FoldedAt(parts: seq<string>, norms: seq<Norm>, k: nat)
    requires k < |norms|
    ensures var folded, n := Folded(parts, norms), k + Inserted(parts, norms);
      && n < |folded|
      && folded[n] ==
         if n == 0 && parts != [] then norms[k].(texts := [SystemText(parts) + "\n\n" + Join(norms[k].texts, "\n")])
         else norms[k]
  {
    FoldedKeeps(parts, norms);
    hide Join;
  }

  lemma AppAt(stamp: string, model: string, norms: seq<Norm>, n: nat)
    requires n < |norms|
    ensures |AppMessages(stamp, model, norms)| == |norms|
    ensures var m := AppMessages(stamp, model, norms)[n];
      && m.role == norms[n].role && BlockTexts(m) == [stamp] + norms[n].texts
      && m.model == if norms[n].role != "assistant" then None
                    else if norms[n].model != "" then Some(norms[n].model)
                    else if model != "" then Some(model) else None
  {
    var texts := norms[n].texts;
    assert forall last, k :: 0 <= k <= |texts| ==> Blocks(stamp, texts, last)[k].text == ([stamp] + texts)[k];
  }

  /** How the `k`-th message of the conversation is sent, given what it was reduced to. */
  lemma SentAt(parse: Parse, system: string, msgs: seq<Message>, model: string, stamp: string, k: nat)
    requires k < |Conversation(msgs)|
    ensures var convo, parts := Conversation(msgs), SystemParts(parse, system, msgs);
            var out, n := MessagesFor(parse, system, msgs, model, stamp), k + InFront(parts, convo);
            var norm := NormsOf(parse, CallNames(convo), convo)[k];
      && n < |out| && out[n].role == norm.role
      && BlockTexts(out[n]) == [stamp] + (if n == 0 && parts != [] then
                                          [SystemText(parts) + "\n\n" + Join(norm.texts, "\n")]
                                         else norm.texts)
      && out[n].model == if norm.role != "assistant" then None
                         else if norm.model != "" then Some(norm.model)
                         else if model != "" then Some(model) else None
  {
    hide *;
    var convo, parts := Conversation(msgs), SystemParts(parse, system, msgs);
    var norms := NormsOf(parse, CallNames(convo), convo);
    NormRoles(parse, CallNames(convo), convo);
    InsertedInFront(parse, parts, convo);
    FoldedAt(parts, norms, k);
    MessagesUnfold(parse, system, msgs, model, stamp);
    AppAt(stamp, model, Folded(parts, norms), k + Inserted(parts, norms));
  }

  // ----- Each kind of message -----

  /**
   A message of the user, or of any role but the assistant's and a tool's, is sent as it is:
   after the timestamp all its texts in order, with the system texts in front of them if it
   is the user's and the very first.
   */
  lemma UserMessageSent(parse: Parse, system: string, msgs: seq<Message>, model: string, stamp: string, k: nat,
                        texts: seq<string>)
    requires k < |Conversation(msgs)| && Conversation(msgs)[k].role !in {"assistant", "tool"}
    requires ContentSays(parse, Conversation(msgs)[k].content, texts)
    ensures var convo, parts := Conversation(msgs), SystemParts(parse, system, msgs);
            var out, n := MessagesFor(parse, system, msgs, model, stamp), k + InFront(parts, convo);
      && n < |out| && out[n].role == convo[k].role && out[n].model == None
      && BlockTexts(out[n]) ==
         if n == 0 && parts != [] then [stamp, SystemText(parts) + "\n\n" + Join(texts, "\n")] else [stamp] + texts
  {
    hide *;
    UserNorm(parse, CallNames(Conversation(msgs)), Conversation(msgs), k, texts);
    SentAt(parse, system, msgs, model, stamp, k);
    NoBlocksBefore(stamp, texts);
  }

  lemma NoBlocksBefore(stamp: string, texts: seq<string>)
    ensures forall s: string :: [stamp] + [s] == [stamp, s]
  {
  }

  lemma UserNorm(parse: Parse, names: map<string, string>, convo: seq<Message>, k: nat, texts: seq<string>)
    requires k < |convo| && convo[k].role !in {"assistant", "tool"} && ContentSays(parse, convo[k].content, texts)
    ensures |NormsOf(parse, names, convo)| == |convo|
    ensures NormsOf(parse, names, convo)[k] == Norm(convo[k].role, texts, "")
  {
    ContentTexts(parse, convo[k].content, texts);
    hide TextOfContent, ContentSays;
  }

  /** The line for a tool call. */
  function LineFor(c: ToolCall): string {
    "[tool_call " + c.name + "] " + if c.arguments == "" then "{}" else c.arguments
  }

  /** The lines of an assistant's message: its texts, unless they are empty, and its calls. */
  function AssistantLines(texts: seq<string>, calls: seq<ToolCall>): seq<string> {
    (if Join(texts, "\n") == "" then [] else [Join(texts, "\n")])
    + seq(|calls|, k requires 0 <= k < |calls| => LineFor(calls[k]))
  }

  /**
   A message of the assistant is sent as one text, its own texts and then a line for each tool
   call with the call's name and arguments, under its own model or else the request's.
   */
  lemma AssistantMessageSent(parse: Parse, system: string, msgs: seq<Message>, model: string, stamp: string, k: nat,
                             texts: seq<string>)
    requires k < |Conversation(msgs)| && Conversation(msgs)[k].role == "assistant"
    requires ContentSays(parse, Conversation(msgs)[k].content, texts)
    ensures var convo, parts := Conversation(msgs), SystemParts(parse, system, msgs);
            var out, n := MessagesFor(parse, system, msgs, model, stamp), k + InFront(parts, convo);
      && n < |out| && out[n].role == "assistant"
      && BlockTexts(out[n]) == [stamp, Join(AssistantLines(texts, convo[k].toolCalls), "\n")]
      && out[n].model == if convo[k].model != "" then Some(convo[k].model) else if model != "" then Some(model)
           else None
  {
    var convo, parts := Conversation(msgs), SystemParts(parse, system, msgs);
    AssistantNorm(parse, CallNames(convo), convo[k], texts);
    assert k == 0 ==> InFront(parts, convo) == (if parts != [] then 1 else 0);
    assert NormsOf(parse, CallNames(convo), convo)[k] == NormOf(parse, CallNames(convo), convo[k]);
    hide *;
    SentAt(parse, system, msgs, model, stamp, k);
  }

  lemma AssistantNorm(parse: Parse, names: map<string, string>, m: Message, texts: seq<string>)
    requires m.role == "assistant"
    requires ContentSays(parse, m.content, texts)
    ensures NormOf(parse, names, m) == Norm("assistant", [Join(AssistantLines(texts, m.toolCalls), "\n")], m.model)
  {
    ContentTexts(parse, m.content, texts);
    var calls := m.toolCalls;
    assert CallLines(calls) == seq(|calls|, k requires 0 <= k < |calls| => LineFor(calls[k]));
    hide TextOfContent, Join, ContentSays;
  }

  /** With neither messages nor system texts a greeting is sent. */
  lemma GreetingSent(parse: Parse, system: string, msgs: seq<Message>, model: string, stamp: string)
    requires Conversation(msgs) == [] && SystemParts(parse, system, msgs) == []
    ensures var out := MessagesFor(parse, system, msgs, model, stamp);
            |out| == 1 && out[0].role == "user" && BlockTexts(out[0]) == [stamp, "Hello"]
  {
    hide Conversation, SystemParts, CallNames;
  }

  // ----- The system texts -----

  /** The texts are those of the system messages that are not empty, in order. */
  predicate SystemsSay(parse: Parse, systems: seq<Message>, texts: seq<string>)
    decreases |systems|
  {
    if systems == [] then texts == []
    else if StringSays(parse, Last(systems).content, "") then SystemsSay(parse, Init(systems), texts)
    else
      && texts != [] && StringSays(parse, Last(systems).content, Last(texts))
      && SystemsSay(parse, Init(systems), Init(texts))
  }

  lemma {:induction false} SystemTextsSay(parse: Parse, msgs: seq<Message>)
    ensures SystemsSay(parse, Systems(msgs), SystemTexts(parse, msgs))
  {
    if msgs != [] {
      var m, before := Last(msgs), msgs[..|msgs| - 1];
      SystemTextsSay(parse, before);
      ContentStringSays(parse, m.content);
      var systems, texts := Systems(before), SystemTexts(parse, before);
      if IsSystem(m) {
        assert Init(systems + [m]) == systems && Last(systems + [m]) == m;
        var s := ContentString(parse, m.content);
        assert s != "" ==> Init(texts + [s]) == texts && Last(texts + [s]) == s;
        assert texts + [] == texts;
      } else {
        assert systems + [] == systems && texts + [] == texts;
      }
    }
  }

  /**
   The system texts are the explicit one, unless it is blank, and then those of the system
   messages; if there are any they stand between tags at the head of a first message of the
   user's.
   */
  lemma SystemTextsSent(parse: Parse, system: string, msgs: seq<Message>, model: string, stamp: string)
    ensures var parts, texts := SystemParts(parse, system, msgs), SystemTexts(parse, msgs);
      && parts == (if TrimSpace(system) == "" then [] else [system]) + texts
      && SystemsSay(parse, Systems(msgs), texts)
      && (parts != [] ==>
            var out := MessagesFor(parse, system, msgs, model, stamp);
            && out != [] && out[0].role == "user" && |out[0].blocks| == 2
            && SystemText(parts) <= out[0].blocks[1].text)
  {
    SystemTextsSay(parse, msgs);
    var parts := SystemParts(parse, system, msgs);
    assert SystemBlock(parts) == SystemText(parts);
    if parts != [] {
      SystemLeads(parse, system, msgs, model, stamp);
    }
    hide MessagesFor, SystemText, SystemBlock, Systems, SystemTexts, TrimSpace;
  }
}
