/**
 * What request conversion guarantees: when it fails, that it never alters the prompt,
 * that tool results are named, that a served message survives being replayed, and that
 * a growing conversation keeps its root.
 */
module ConvertTheorems {
  import opened Wrappers
  import Chat
  import Stream
  import opened Convert

  /** An image that is linked instead of carried in the message. */
  predicate Linked(p: Part) {
    p.kind == "image_url" && p.image != "" && !("data:" <= p.image)
  }

  ghost predicate AnyLinked(parts: seq<Part>) {
    exists i :: 0 <= i < |parts| && Linked(parts[i])
  }

  /** A message no conversion accepts. */
  ghost predicate Rejected(m: Turn) {
    if m.role == "user" then m.content.Parts? && AnyLinked(m.content.parts)
    else m.role !in {"system", "developer", "assistant", "tool"}
  }

  ghost predicate AnyRejected(msgs: seq<Turn>) {
    exists i :: 0 <= i < |msgs| && Rejected(msgs[i])
  }

  lemma LinkedSomewhere(parts: seq<Part>)
    requires parts != []
    ensures AnyLinked(parts) <==> AnyLinked(parts[..|parts| - 1]) || Linked(parts[|parts| - 1])
  {
    hide Linked;
    var init := parts[..|parts| - 1];
    assert forall i :: 0 <= i < |init| ==> init[i] == parts[i];
  }

  lemma RejectedSomewhere(msgs: seq<Turn>)
    requires msgs != []
    ensures AnyRejected(msgs) <==> AnyRejected(msgs[..|msgs| - 1]) || Rejected(msgs[|msgs| - 1])
  {
    hide Rejected;
    var init := msgs[..|msgs| - 1];
    assert forall i :: 0 <= i < |init| ==> init[i] == msgs[i];
  }

  lemma {:induction false} UserPartsFail(parts: seq<Part>)
    ensures UserParts(parts).Err? <==> AnyLinked(parts)
  {
    if parts != [] {
      UserPartsFail(parts[..|parts| - 1]);
      LinkedSomewhere(parts);
      hide AnyLinked, UserPart;
    }
  }

  lemma TurnFails(d: Draft, m: Turn)
    ensures ConvertTurn(d, m).Err? <==> Rejected(m)
  {
    if m.content.Parts? {
      UserPartsFail(m.content.parts);
    }
    hide AnyLinked, UserParts, AssistantContent, ContentText, CallParts, CallNames, ResultName, Said;
  }

  /** Conversion fails exactly when some message is of an unknown role or a user's remote image. */
  lemma {:induction false} FailsExactly(msgs: seq<Turn>)
    ensures Convert.Convert(msgs).Err? <==> AnyRejected(msgs)
  {
    if msgs != [] {
      var init := msgs[..|msgs| - 1];
      FailsExactly(init);
      RejectedSomewhere(msgs);
      if Convert.Convert(init).Ok? {
        TurnFails(Convert.Convert(init).value, msgs[|msgs| - 1]);
      }
      hide AnyRejected, Rejected, ConvertTurn;
    }
  }

  /** Appending turns never rewrites what earlier turns were converted to. */
  lemma {:induction false} EarlierTurnsStay(msgs: seq<Turn>, more: seq<Turn>)
    requires Convert.Convert(msgs + more).Ok?
    ensures Convert.Convert(msgs).Ok?
    ensures Convert.Convert(msgs).value.out <= Convert.Convert(msgs + more).value.out
    ensures Convert.Convert(msgs).value.system <= Convert.Convert(msgs + more).value.system
  {
    if more == [] {
      assert msgs + more == msgs;
    } else {
      var init := more[..|more| - 1];
      assert (msgs + more)[..|msgs + more| - 1] == msgs + init;
      EarlierTurnsStay(msgs, init);
    }
  }

  /** The name of the last assistant call with the id, if there is one. */
  function LastName(msgs: seq<Turn>, id: string): Option<string> {
    if msgs == [] then None else
    var last := msgs[|msgs| - 1];
    var here := if last.role == "assistant" then LastCall(last.toolCalls, id) else None;
    if here.Some? then here else LastName(msgs[..|msgs| - 1], id)
  }

  function LastCall(calls: seq<Chat.ToolCallRecord>, id: string): Option<string> {
    if calls == [] then None
    else if calls[|calls| - 1].id == id then Some(calls[|calls| - 1].name)
    else LastCall(calls[..|calls| - 1], id)
  }

  function Lookup(names: map<string, string>, id: string): Option<string> {
    if id in names then Some(names[id]) else None
  }

  lemma {:induction false} CallNamesLookup(names: map<string, string>, calls: seq<Chat.ToolCallRecord>, id: string)
    ensures Lookup(CallNames(names, calls), id) ==
              if LastCall(calls, id).Some? then LastCall(calls, id) else Lookup(names, id)
  {
    if calls != [] {
      CallNamesLookup(names, calls[..|calls| - 1], id);
    }
  }

  lemma {:induction false} NamesAreLast(msgs: seq<Turn>, id: string)
    requires Convert.Convert(msgs).Ok?
    ensures Lookup(Convert.Convert(msgs).value.names, id) == LastName(msgs, id)
  {
    if msgs != [] {
      var init := msgs[..|msgs| - 1];
      NamesAreLast(init, id);
      CallNamesLookup(Convert.Convert(init).value.names, msgs[|msgs| - 1].toolCalls, id);
    }
  }

  /**
   * A tool result keeps its name; without one it gets the name of the last preceding call
   * with its id, and "unknown" exactly when there is none or that call has no name.
   */
  lemma ResultIsNamed(msgs: seq<Turn>, m: Turn)
    requires Convert.Convert(msgs).Ok? && m.role == "tool"
    ensures var name := LastName(msgs, m.toolCallId);
            var shown := if m.name != "" then m.name
                         else if name.Some? && name.value != "" then name.value else "unknown";
            Convert.Convert(msgs + [m]) ==
              Ok(Convert.Convert(msgs).value.(out := Convert.Convert(msgs).value.out
                   + [WireMessage("tool", [ToolResult(m.toolCallId, shown, ContentText(m))])]))
  {
    assert (msgs + [m])[..|msgs|] == msgs;
    NamesAreLast(msgs, m.toolCallId);
  }

  /** The visible text of wire parts, run together. */
  function WireText(parts: seq<WirePart>): string {
    if parts == [] then "" else
    var last := parts[|parts| - 1];
    WireText(parts[..|parts| - 1]) + if last.Text? then last.text else ""
  }

  lemma WireTextMore(a: seq<WirePart>, p: WirePart)
    ensures WireText(a + [p]) == WireText(a) + if p.Text? then p.text else ""
  {
    assert (a + [p])[..|a|] == a;
  }

  lemma {:induction false} WireTextAppend(a: seq<WirePart>, b: seq<WirePart>)
    ensures WireText(a + b) == WireText(a) + WireText(b)
  {
    if b == [] {
      assert a + b == a;
    } else {
      var init, last := b[..|b| - 1], b[|b| - 1];
      WireTextAppend(a, init);
      assert b == init + [last] && a + b == (a + init) + [last];
      WireTextMore(a + init, last);
      WireTextMore(init, last);
      hide WireText;
      Regroup(WireText(a), WireText(init), if last.Text? then last.text else "");
    }
  }

  lemma Regroup(a: string, b: string, c: string)
    ensures (a + b) + c == a + (b + c)
  {
  }

  lemma {:induction false} UserPartsText(parts: seq<Part>)
    requires UserParts(parts).Ok?
    ensures WireText(UserParts(parts).value) == KindText(parts, "text")
  {
    if parts != [] {
      var init := parts[..|parts| - 1];
      UserPartsText(init);
      WireTextAppend(UserParts(init).value, UserPart(parts[|parts| - 1]));
    }
  }

  lemma {:induction false} AssistantPartsText(parts: seq<Part>)
    ensures WireText(AssistantParts(parts)) == KindText(parts, "text")
  {
    if parts != [] {
      var init := parts[..|parts| - 1];
      AssistantPartsText(init);
      WireTextAppend(AssistantParts(init), AssistantPart(parts[|parts| - 1]));
    }
  }

  /** Conversion keeps the text of user and assistant messages, whatever parts it drops or adds. */
  lemma TextIsKept(m: Turn)
    ensures UserContent(m).Ok? ==> WireText(UserContent(m).value) == ContentText(m)
    ensures WireText(AssistantContent(m)) == ContentText(m)
  {
    UserTextIsKept(m);
    AssistantTextIsKept(m);
    hide *;
  }

  lemma OneText(text: string)
    ensures WireText(if text != "" then [Text(text)] else []) == text
    ensures WireText([Reasoning(text)]) == ""
  {
  }

  lemma UserTextIsKept(m: Turn)
    ensures UserContent(m).Ok? ==> WireText(UserContent(m).value) == ContentText(m)
  {
    hide WireText, KindText, UserParts;
    if !m.content.Parts? {
      OneText(ContentText(m));
    } else if UserContent(m).Ok? {
      UserPartsText(m.content.parts);
    }
  }

  lemma AssistantTextIsKept(m: Turn)
    ensures WireText(AssistantContent(m)) == ContentText(m)
  {
    hide WireText, KindText, AssistantParts;
    var parts := if m.content.Parts? then AssistantParts(m.content.parts)
                 else if ContentText(m) != "" then [Text(ContentText(m))] else [];
    if m.content.Parts? {
      AssistantPartsText(m.content.parts);
    } else {
      OneText(ContentText(m));
    }
    OneText(m.reasoning);
    WireTextAppend([Reasoning(m.reasoning)], parts);
  }

  lemma {:induction false} FirstIndex(s: string, c: char, rest: string)
    requires c !in s
    ensures IndexOf(s + [c] + rest, c) == Some(|s|)
  {
    if s != [] {
      FirstIndex(s[1..], c, rest);
      assert (s + [c] + rest)[1..] == s[1..] + [c] + rest;
    }
  }

  lemma NoIndex(s: string, c: char)
    requires c !in s
    ensures IndexOf(s, c).None?
  {
  }

  /** A data URL's type is what stands before its first semicolon, or before its comma if it has none. */
  lemma MimeOfDataUrl(mime: string, rest: string)
    requires mime != "" && ';' !in mime
    ensures MimeFromDataUrl("data:" + mime + ";" + rest) == mime
    ensures ',' !in mime && ';' !in rest ==> MimeFromDataUrl("data:" + mime + "," + rest) == mime
  {
    FirstIndex(mime, ';', rest);
    assert ("data:" + mime + ";" + rest)[5..] == mime + ";" + rest;
    assert (mime + ";" + rest)[..|mime|] == mime;
    if ',' !in mime && ';' !in rest {
      FirstIndex(mime, ',', rest);
      var body := mime + "," + rest;
      assert ("data:" + mime + "," + rest)[5..] == body && body[..|mime|] == mime;
      NoIndex(body, ';');
    }
  }

  /** An empty type: the parameters up to the comma are taken for it, and png stands in when there is nothing. */
  lemma MimeOfUntypedUrl(params: string, rest: string)
    requires ',' !in params
    ensures MimeFromDataUrl("data:" + ";" + params + "," + rest) == ";" + params
    ensures MimeFromDataUrl("data:" + ";" + params) == "image/png"
    ensures ';' !in rest ==> MimeFromDataUrl("data:" + "," + rest) == "image/png"
  {
    hide MimeFromDataUrl;
    MimeOfParameters(params, rest);
    MimeOfParametersOnly(params);
    if ';' !in rest {
      MimeOfNothing(rest);
    }
  }

  lemma MimeOfParameters(params: string, rest: string)
    requires ',' !in params
    ensures MimeFromDataUrl("data:" + ";" + params + "," + rest) == ";" + params
  {
    var typed, bare := ";" + params + "," + rest, ";" + params;
    assert ("data:" + ";" + params + "," + rest)[5..] == typed;
    FirstIndex("", ';', params + "," + rest);
    assert "" + ";" + (params + "," + rest) == typed;
    FirstIndex(bare, ',', rest);
    assert typed[..|bare|] == bare;
    hide IndexOf;
  }

  lemma MimeOfParametersOnly(params: string)
    requires ',' !in params
    ensures MimeFromDataUrl("data:" + ";" + params) == "image/png"
  {
    var bare := ";" + params;
    assert ("data:" + ";" + params)[5..] == bare;
    FirstIndex("", ';', params);
    assert "" + ";" + params == bare;
    NoIndex(bare, ',');
    hide IndexOf;
  }

  lemma MimeOfNothing(rest: string)
    requires ';' !in rest
    ensures MimeFromDataUrl("data:" + "," + rest) == "image/png"
  {
    var plain := "," + rest;
    assert ("data:" + "," + rest)[5..] == plain;
    FirstIndex("", ',', rest);
    assert "" + "," + rest == plain;
    NoIndex(plain, ';');
    hide IndexOf;
  }

  // ---------------------------------------------------------------- the prompt is preserved

  /** The nonempty system and developer texts, in order. */
  function SystemTexts(msgs: seq<Turn>): seq<string> {
    if msgs == [] then [] else
    var before := SystemTexts(msgs[..|msgs| - 1]);
    var last := msgs[|msgs| - 1];
    if IsSystem(last) && ContentText(last) != "" then before + [ContentText(last)] else before
  }

  lemma {:induction false} ConvertedTexts(msgs: seq<Turn>)
    requires Convert.Convert(msgs).Ok?
    ensures Convert.Convert(msgs).value.system == SystemTexts(msgs)
  {
    if msgs != [] {
      ConvertedTexts(msgs[..|msgs| - 1]);
    }
  }

  /** The text the upstream reads from a system field. */
  function FlatText(sections: seq<SystemPart>): string {
    if sections == [] then "" else FlatText(sections[..|sections| - 1]) + sections[|sections| - 1].text
  }

  function PromptOf(s: WireSystem): string {
    match s
    case Whole(text) => text
    case Sections(parts) => FlatText(parts)
  }

  lemma FlatMore(a: seq<SystemPart>, p: SystemPart)
    ensures FlatText(a + [p]) == FlatText(a) + p.text
  {
    assert (a + [p])[..|a|] == a;
  }

  lemma {:induction false} FlatAppend(a: seq<SystemPart>, b: seq<SystemPart>)
    ensures FlatText(a + b) == FlatText(a) + FlatText(b)
  {
    if b == [] {
      assert a + b == a;
    } else {
      var init, last := b[..|b| - 1], b[|b| - 1];
      FlatAppend(a, init);
      assert b == init + [last] && a + b == (a + init) + [last];
      FlatMore(a + init, last);
      FlatMore(init, last);
      hide FlatText;
      Regroup(FlatText(a), FlatText(init), last.text);
    }
  }

  lemma FlatBreak(sections: seq<SystemPart>)
    requires sections != []
    ensures FlatText(WithBreak(sections)) == FlatText(sections) + "\n"
  {
    var last := |sections| - 1;
    assert WithBreak(sections)[..last] == sections[..last];
  }

  lemma {:induction false} FlatTexts(parts: seq<Part>)
    ensures FlatText(TextSections(parts)) == KindText(parts, "text")
  {
    if parts != [] {
      FlatTexts(parts[..|parts| - 1]);
    }
  }

  lemma FlatOwn(m: Turn)
    ensures FlatText(OwnSections(m)) == ContentText(m)
  {
    if m.content.Parts? {
      FlatTexts(m.content.parts);
    }
  }

  lemma {:induction false} SectionsJoin(msgs: seq<Turn>)
    ensures FlatText(SystemSections(msgs)) == Joined(SystemTexts(msgs))
    ensures SystemSections(msgs) == [] <==> SystemTexts(msgs) == []
  {
    if msgs != [] {
      var init := msgs[..|msgs| - 1];
      var last := msgs[|msgs| - 1];
      SectionsJoin(init);
      FlatOwn(last);
      if IsSystem(last) && ContentText(last) != "" {
        FlatAppend(WithBreak(SystemSections(init)), OwnSections(last));
        assert SystemTexts(msgs)[..|SystemTexts(init)|] == SystemTexts(init);
        if SystemSections(init) != [] {
          FlatBreak(SystemSections(init));
        }
      }
    }
  }

  lemma {:induction false} JoinedIsEmpty(msgs: seq<Turn>)
    ensures Joined(SystemTexts(msgs)) == "" <==> SystemTexts(msgs) == []
  {
    if msgs != [] {
      JoinedIsEmpty(msgs[..|msgs| - 1]);
    }
  }

  /** Sectioned or not, the upstream reads the joined system texts, or one space if there are none. */
  lemma PromptIsPreserved(msgs: seq<Turn>)
    ensures var texts := SystemTexts(msgs);
            PromptOf(SystemForm(msgs, Joined(texts))) == if texts == [] then " " else Joined(texts)
  {
    SectionsJoin(msgs);
    JoinedIsEmpty(msgs);
  }

  ghost predicate AnyMark(sections: seq<SystemPart>) {
    exists i :: 0 <= i < |sections| && sections[i].cache.Some?
  }

  lemma {:induction false} MarksKept(parts: seq<Part>)
    ensures AnyMark(TextSections(parts)) <==> exists i :: 0 <= i < |parts| && MarkedText(parts[i])
  {
    if parts != [] {
      var init := parts[..|parts| - 1];
      MarksKept(init);
      assert forall i :: 0 <= i < |init| ==> init[i] == parts[i];
      if parts[|init|].kind == "text" {
        var own := [SystemPart(parts[|init|].text, parts[|init|].cache)];
        AnyMarkAppend(TextSections(init), own);
        assert AnyMark(own) <==> own[0].cache.Some?;
      }
    }
  }

  lemma AnyMarkAppend(a: seq<SystemPart>, b: seq<SystemPart>)
    ensures AnyMark(a + b) <==> AnyMark(a) || AnyMark(b)
  {
    if AnyMark(b) {
      var i :| 0 <= i < |b| && b[i].cache.Some?;
      assert (a + b)[|a| + i] == b[i];
    }
    if AnyMark(a) {
      var i :| 0 <= i < |a| && a[i].cache.Some?;
      assert (a + b)[i] == a[i];
    }
  }

  lemma AnyMarkBreak(a: seq<SystemPart>)
    ensures AnyMark(WithBreak(a)) <==> AnyMark(a)
  {
    if AnyMark(a) {
      var i :| 0 <= i < |a| && a[i].cache.Some?;
      assert WithBreak(a)[i].cache == a[i].cache;
    }
    if AnyMark(WithBreak(a)) {
      var i :| 0 <= i < |WithBreak(a)| && WithBreak(a)[i].cache.Some?;
      assert WithBreak(a)[i].cache == a[i].cache;
    }
  }

  lemma OwnMarks(m: Turn)
    requires IsSystem(m)
    ensures AnyMark(OwnSections(m)) <==> Marked(m)
  {
    if m.content.Parts? {
      MarksKept(m.content.parts);
    }
  }

  predicate MarkedWithText(m: Turn) {
    Marked(m) && ContentText(m) != ""
  }

  ghost predicate AnyMarkedWithText(msgs: seq<Turn>) {
    exists i :: 0 <= i < |msgs| && MarkedWithText(msgs[i])
  }

  lemma MarkedSomewhere(msgs: seq<Turn>)
    requires msgs != []
    ensures AnyMarkedWithText(msgs) <==> AnyMarkedWithText(msgs[..|msgs| - 1]) || MarkedWithText(msgs[|msgs| - 1])
  {
    hide MarkedWithText;
    var init := msgs[..|msgs| - 1];
    assert forall i :: 0 <= i < |init| ==> init[i] == msgs[i];
  }

  /** The sections carry a cache mark exactly when a marked message is not empty. */
  lemma {:induction false} MarksSurviveExactly(msgs: seq<Turn>)
    ensures AnyMark(SystemSections(msgs)) <==> AnyMarkedWithText(msgs)
  {
    if msgs != [] {
      var init := msgs[..|msgs| - 1];
      var last := msgs[|msgs| - 1];
      MarksSurviveExactly(init);
      MarkedSomewhere(msgs);
      OnlySystemIsMarked(last);
      hide AnyMark, AnyMarkedWithText, Marked, OwnSections, WithBreak, ContentText;
      if IsSystem(last) && ContentText(last) != "" {
        AnyMarkAppend(WithBreak(SystemSections(init)), OwnSections(last));
        AnyMarkBreak(SystemSections(init));
        OwnMarks(last);
      }
    }
  }

  /**
   * A prompt is sent in sections without a single cache mark exactly if a mark asked for
   * sections, every marked message is empty, and another system message is not.
   */
  lemma UnmarkedSectionsExactly(msgs: seq<Turn>, fallback: string)
    ensures SystemForm(msgs, fallback).Sections? && !AnyMark(SystemForm(msgs, fallback).parts)
            <==> (exists i :: 0 <= i < |msgs| && Marked(msgs[i])) && !AnyMarkedWithText(msgs) && SystemTexts(msgs) != []
  {
    hide AnyMark, AnyMarkedWithText, Marked;
    MarksSurviveExactly(msgs);
    SectionsJoin(msgs);
  }

  /** It happens: an empty system text marked for caching, then a plain system message. */
  lemma MarkIsLost(fallback: string)
    ensures var empty := Turn("system", "", Parts([Part("text", "", Some("ephemeral"), "")]), "", [], "", "");
            var plain := Turn("system", "", Plain("x"), "", [], "", "");
            SystemForm([empty, plain], fallback) == Sections([SystemPart("x", None)])
  {
    var part := Part("text", "", Some("ephemeral"), "");
    var empty := Turn("system", "", Parts([part]), "", [], "", "");
    var plain := Turn("system", "", Plain("x"), "", [], "", "");
    var msgs := [empty, plain];
    assert MarkedText(empty.content.parts[0]) && Marked(msgs[0]);
    assert [part][..0] == [] && KindText([part], "text") == "" + "";
    assert ContentText(empty) == "" && ContentText(plain) == "x";
    assert msgs[..1] == [empty] && [empty][..0] == [];
    assert SystemSections([empty]) == [];
    assert WithBreak([]) + OwnSections(plain) == [SystemPart("x", None)];
  }

  // ---------------------------------------------------------------- replaying a served message

  /** A served message sent back as a turn of the conversation. */
  function AsTurn(m: Chat.Message, raw: string): Turn {
    Turn("assistant", raw, if m.content.Some? then Plain(m.content.value) else Null,
         if m.reasoning.Some? then m.reasoning.value else "", m.toolCalls, "", "")
  }

  function Lead(m: Chat.Message): seq<WirePart> {
    (if m.reasoning.Some? && m.reasoning.value != "" then [Reasoning(m.reasoning.value)] else [])
    + (if m.content.Some? && m.content.value != "" then [Text(m.content.value)] else [])
  }

  lemma {:induction false} CallPartsAt(calls: seq<Chat.ToolCallRecord>)
    ensures |CallParts(calls)| == |calls|
    ensures forall k :: 0 <= k < |calls| ==>
              CallParts(calls)[k] == ToolCall(calls[k].id, calls[k].name, ParsedFrom(calls[k].arguments))
  {
    if calls != [] {
      CallPartsAt(calls[..|calls| - 1]);
    }
  }

  /** These are the calls' wire parts, in order. */
  ghost predicate AreCalls(parts: seq<WirePart>, calls: seq<Chat.ToolCallRecord>) {
    && |parts| == |calls|
    && forall k :: 0 <= k < |calls| ==> parts[k] == ToolCall(calls[k].id, calls[k].name, ParsedFrom(calls[k].arguments))
  }

  /** What the out messages gain from a replayed message: one assistant message, or nothing. */
  ghost predicate Gains(before: seq<WireMessage>, after: seq<WireMessage>, lead: seq<WirePart>,
                        calls: seq<Chat.ToolCallRecord>) {
    if lead == [] && calls == [] then after == before
    else
      && |after| == |before| + 1 && after[..|before|] == before && after[|before|].role == "assistant"
      && var said := after[|before|].content;
         |said| >= |lead| && said[..|lead|] == lead && AreCalls(said[|lead|..], calls)
  }

  lemma SaidGains(out: seq<WireMessage>, lead: seq<WirePart>, calls: seq<Chat.ToolCallRecord>)
    ensures Gains(out, Said(out, "assistant", lead + CallParts(calls)), lead, calls)
  {
    CallPartsAt(calls);
    hide CallParts;
    var parts := lead + CallParts(calls);
    assert parts[..|lead|] == lead && parts[|lead|..] == CallParts(calls);
    assert parts == [] <==> lead == [] && calls == [];
  }

  lemma ConvertMore(msgs: seq<Turn>, m: Turn)
    requires Convert.Convert(msgs).Ok?
    ensures Convert.Convert(msgs + [m]) == ConvertTurn(Convert.Convert(msgs).value, m)
  {
    assert (msgs + [m])[..|msgs|] == msgs;
    hide ConvertTurn;
  }

  lemma ReplayedContent(m: Chat.Message, raw: string)
    ensures AssistantContent(AsTurn(m, raw)) == Lead(m)
  {
  }

  /**
   * Replaying a message yields its reasoning, then its text, then its calls in order with
   * their ids, names and arguments, as one assistant message; an empty one yields nothing.
   */
  lemma ReplayKeepsTheMessage(before: seq<Turn>, m: Chat.Message, raw: string)
    requires Convert.Convert(before).Ok?
    ensures var r := Convert.Convert(before + [AsTurn(m, raw)]);
            r.Ok? && Gains(Convert.Convert(before).value.out, r.value.out, Lead(m), m.toolCalls)
  {
    ConvertMore(before, AsTurn(m, raw));
    ReplayedContent(m, raw);
    hide Convert.Convert, AssistantContent, Gains, CallParts, CallNames, Said, Lead;
    SaidGains(Convert.Convert(before).value.out, Lead(m), m.toolCalls);
  }

  predicate DistinctIds(calls: seq<Chat.ToolCallRecord>) {
    forall i, j :: 0 <= i < j < |calls| ==> calls[i].id != calls[j].id
  }

  lemma {:induction false} LastCallOfDistinct(calls: seq<Chat.ToolCallRecord>, k: nat)
    requires k < |calls| && DistinctIds(calls)
    ensures LastCall(calls, calls[k].id) == Some(calls[k].name)
  {
    if k < |calls| - 1 {
      LastCallOfDistinct(calls[..|calls| - 1], k);
    }
  }

  /** Turns that make no calls do not change which call an id refers to. */
  lemma {:induction false} LastNameSkips(msgs: seq<Turn>, between: seq<Turn>, id: string)
    requires forall i :: 0 <= i < |between| ==> between[i].role != "assistant"
    ensures LastName(msgs + between, id) == LastName(msgs, id)
  {
    if between == [] {
      assert msgs + between == msgs;
    } else {
      var init := between[..|between| - 1];
      assert (msgs + between)[..|msgs + between| - 1] == msgs + init;
      LastNameSkips(msgs, init, id);
    }
  }

  ghost predicate AllNamed(calls: seq<Chat.ToolCallRecord>) {
    forall k :: 0 <= k < |calls| ==> calls[k].name != "" && calls[k].id != ""
  }

  lemma BlankIsEmpty()
    ensures Stream.Blank("")
  {
  }

  lemma StepNamesCalls(p: Chat.Progress, ev: Stream.Event)
    requires AllNamed(p.st.toolCalls)
    ensures AllNamed(Chat.CollectEvent(p, ev).st.toolCalls)
  {
    BlankIsEmpty();
    hide Stream.Blank, Stream.OpenAIFinishReason, Chat.Explicit, Chat.ReasonAfter, Chat.UsageAfter;
  }

  /** Every call a handler collects has an id and a name. */
  lemma {:induction false} CollectedCallsAreNamed(evs: seq<Stream.Event>)
    ensures AllNamed(Chat.Collect(evs).st.toolCalls)
  {
    if evs != [] {
      CollectedCallsAreNamed(evs[..|evs| - 1]);
      StepNamesCalls(Chat.Collect(evs[..|evs| - 1]), evs[|evs| - 1]);
      hide Chat.CollectEvent, AllNamed;
    }
  }

  lemma ServedCallsAreNamed(evs: seq<Stream.Event>, ending: Chat.Ending, client: Chat.Client, served: Chat.Frame)
    requires Chat.Aggregated(evs, ending, client) == [served] && served.Completion?
    ensures AllNamed(served.message.toolCalls)
  {
    CollectedCallsAreNamed(evs);
    hide Chat.Collect, AllNamed, Chat.Respond, Chat.CompletionFault, Stream.UsageFromUpstream,
         Chat.JsonFailure, Chat.SseFailure;
  }

  lemma LastNameMore(msgs: seq<Turn>, m: Turn, id: string)
    requires m.role == "assistant" && LastCall(m.toolCalls, id).Some?
    ensures LastName(msgs + [m], id) == LastCall(m.toolCalls, id)
  {
    assert (msgs + [m])[..|msgs|] == msgs;
    hide LastCall;
  }

  /**
   * After a served message with distinct call ids is replayed, a nameless tool result for
   * one of its calls is sent upstream under the name the message gave that call.
   */
  lemma ReplayedCallsNameResults(evs: seq<Stream.Event>, ending: Chat.Ending, client: Chat.Client, served: Chat.Frame,
                                 before: seq<Turn>, raw: string, between: seq<Turn>, result: Turn, k: nat)
    requires Chat.Aggregated(evs, ending, client) == [served] && served.Completion?
    requires DistinctIds(served.message.toolCalls) && k < |served.message.toolCalls|
    requires forall i :: 0 <= i < |between| ==> between[i].role != "assistant"
    requires result.role == "tool" && result.name == "" && result.toolCallId == served.message.toolCalls[k].id
    requires Convert.Convert(before + [AsTurn(served.message, raw)] + between).Ok?
    ensures var r := Convert.Convert(before + [AsTurn(served.message, raw)] + between + [result]);
            && r.Ok? && r.value.out != []
            && r.value.out[|r.value.out| - 1] ==
                 WireMessage("tool",
                             [ToolResult(result.toolCallId, served.message.toolCalls[k].name, ContentText(result))])
  {
    ServedCallsAreNamed(evs, ending, client, served);
    assert served.message.toolCalls[k].name != "";
    hide Chat.Aggregated, AllNamed, DistinctIds, LastCall, LastName, Convert.Convert, ContentText;
    var msgs := before + [AsTurn(served.message, raw)];
    LastCallOfDistinct(served.message.toolCalls, k);
    LastNameMore(before, AsTurn(served.message, raw), result.toolCallId);
    LastNameSkips(msgs, between, result.toolCallId);
    ResultIsNamed(msgs + between, result);
  }

  // ---------------------------------------------------------------- the conversation root

  predicate AllSystem(msgs: seq<Turn>) {
    forall i :: 0 <= i < |msgs| ==> IsSystem(msgs[i])
  }

  lemma SamePrefix(a: string, x: string, y: string)
    ensures a + x == a + y <==> x == y
  {
    assert (a + x)[|a|..] == x && (a + y)[|a|..] == y;
  }

  /** Turns after the first non-system message never move the root; any turn before it does. */
  lemma {:induction false} RootIsStable(msgs: seq<Turn>, more: seq<Turn>)
    ensures RootPreimage(msgs + more) == RootPreimage(msgs) <==> more == [] || !AllSystem(msgs)
  {
    if msgs == [] {
      assert msgs + more == more;
      if more != [] {
        assert |RootPreimage(more)| > 0;
      }
    } else {
      assert (msgs + more)[0] == msgs[0] && (msgs + more)[1..] == msgs[1..] + more;
      RootIsStable(msgs[1..], more);
      if IsSystem(msgs[0]) {
        SamePrefix(RootEntry(msgs[0]), RootPreimage(msgs[1..] + more), RootPreimage(msgs[1..]));
        assert AllSystem(msgs) <==> AllSystem(msgs[1..]) by {
          assert forall i :: 0 < i < |msgs| ==> msgs[i] == msgs[1..][i - 1];
        }
      }
    }
  }
}
