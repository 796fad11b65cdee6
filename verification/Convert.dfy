/**
 * Translation of chat requests to the upstream wire form (proxy/internal/convert/convert.go).
 * JSON is already decoded: a message carries its raw content and what it decodes to, and
 * the object parseArguments makes of an arguments text is named by that text.
 */
module Convert {
  import opened Wrappers
  import Chat

  /** One element of an array-form content; cache is the type of its cache_control, image the URL if any. */
  datatype Part = Part(kind: string, text: string, cache: Option<string>, image: string)

  /** What a content field decodes to; anything but a string, null or an array of parts is Malformed. */
  datatype Content = Missing | Null | Plain(text: string) | Parts(parts: seq<Part>) | Malformed

  datatype Turn = Turn(role: string, raw: string, content: Content, reasoning: string,
                       toolCalls: seq<Chat.ToolCallRecord>, toolCallId: string, name: string)

  datatype Object = ParsedFrom(arguments: string)

  datatype WirePart =
    | Text(text: string)
    | Reasoning(text: string)
    | Image(url: string, mime: string)
    | ToolCall(id: string, name: string, input: Object)
    | ToolResult(id: string, name: string, output: string)

  datatype WireMessage = WireMessage(role: string, content: seq<WirePart>)

  datatype SystemPart = SystemPart(text: string, cache: Option<string>)

  datatype WireSystem = Whole(text: string) | Sections(parts: seq<SystemPart>)

  datatype ConvertError = UnsupportedRole(role: string) | RemoteImage(url: string) | BadCacheControl

  predicate IsSystem(m: Turn) {
    m.role == "system" || m.role == "developer"
  }

  // ---------------------------------------------------------------- content

  /** The texts of the parts of a kind, run together. */
  function KindText(parts: seq<Part>, kind: string): string {
    if parts == [] then "" else
    var last := parts[|parts| - 1];
    KindText(parts[..|parts| - 1], kind) + (if last.kind == kind then last.text else "")
  }

  function ContentText(m: Turn): string {
    match m.content
    case Plain(text) => text
    case Parts(parts) => KindText(parts, "text")
    case _ => ""
  }

  method ReadContentText(m: Turn) returns (s: string)
    ensures s == ContentText(m)
  {
    match m.content
    case Plain(text) => s := text;
    case Parts(parts) =>
      s := "";
      for i := 0 to |parts|
        invariant s == KindText(parts[..i], "text")
      {
        assert parts[..i + 1][..i] == parts[..i];
        if parts[i].kind == "text" {
          s := s + parts[i].text;
        }
      }
      assert parts[..|parts|] == parts;
    case _ => s := "";
  }

  /** The wire form of an assistant's part; empty and foreign parts have none. */
  function AssistantPart(p: Part): seq<WirePart> {
    if p.text == "" then []
    else if p.kind == "text" then [Text(p.text)]
    else if p.kind == "reasoning" then [Reasoning(p.text)]
    else []
  }

  function AssistantParts(parts: seq<Part>): seq<WirePart> {
    if parts == [] then [] else AssistantParts(parts[..|parts| - 1]) + AssistantPart(parts[|parts| - 1])
  }

  /** Text and reasoning in the caller's order; a separate reasoning field leads unless it repeats the parts. */
  function AssistantContent(m: Turn): seq<WirePart> {
    var parts := if m.content.Parts? then AssistantParts(m.content.parts)
                 else if ContentText(m) != "" then [Text(ContentText(m))] else [];
    var inParts := if m.content.Parts? then KindText(m.content.parts, "reasoning") else "";
    if m.reasoning != "" && m.reasoning != inParts then [Reasoning(m.reasoning)] + parts else parts
  }

  method ReadAssistantContent(m: Turn) returns (parts: seq<WirePart>)
    ensures parts == AssistantContent(m)
  {
    parts := [];
    var reasoning := "";
    if m.content.Parts? {
      var raw := m.content.parts;
      for i := 0 to |raw|
        invariant parts == AssistantParts(raw[..i]) && reasoning == KindText(raw[..i], "reasoning")
      {
        var p := raw[i];
        assert raw[..i + 1][..i] == raw[..i];
        if (p.kind == "text" || p.kind == "reasoning") && p.text != "" {
          parts := parts + [if p.kind == "text" then Text(p.text) else Reasoning(p.text)];
          if p.kind == "reasoning" {
            reasoning := reasoning + p.text;
          }
        }
      }
      assert raw[..|raw|] == raw;
    } else {
      var text := ReadContentText(m);
      if text != "" {
        parts := [Text(text)];
      }
    }
    if m.reasoning != "" && m.reasoning != reasoning {
      parts := [Reasoning(m.reasoning)] + parts;
    }
  }

  /** The first position of c in s. */
  function IndexOf(s: string, c: char): (i: Option<nat>)
    ensures i.Some? ==> i.value < |s| && s[i.value] == c && c !in s[..i.value]
    ensures i.None? ==> c !in s
  {
    if s == [] then None
    else if s[0] == c then Some(0)
    else
      var rest := IndexOf(s[1..], c);
      if rest.None? then None else
      assert s[..rest.value + 1] == [s[0]] + s[1..][..rest.value];
      Some(rest.value + 1)
  }

  predicate IsDataUrl(u: string) {
    "data:" <= u
  }

  function MimeFromDataUrl(u: string): string {
    if !IsDataUrl(u) then "image/png" else
    var body := u[5..];
    var semicolon, comma := IndexOf(body, ';'), IndexOf(body, ',');
    if semicolon.Some? && semicolon.value > 0 then body[..semicolon.value]
    else if comma.Some? && comma.value > 0 then body[..comma.value]
    else "image/png"
  }

  /** An image the upstream cannot carry. */
  predicate Remote(p: Part) {
    p.kind == "image_url" && p.image != "" && !IsDataUrl(p.image)
  }

  function UserPart(p: Part): seq<WirePart> {
    if p.kind == "text" then [Text(p.text)]
    else if p.kind == "image_url" && p.image != "" then [Image(p.image, MimeFromDataUrl(p.image))]
    else []
  }

  function UserParts(parts: seq<Part>): Result<seq<WirePart>, ConvertError> {
    if parts == [] then Ok([]) else
    var before := UserParts(parts[..|parts| - 1]);
    var last := parts[|parts| - 1];
    if before.Err? then before
    else if Remote(last) then Err(RemoteImage(last.image))
    else Ok(before.value + UserPart(last))
  }

  function UserContent(m: Turn): Result<seq<WirePart>, ConvertError> {
    if m.content.Parts? then UserParts(m.content.parts)
    else Ok(if ContentText(m) != "" then [Text(ContentText(m))] else [])
  }

  method ReadUserContent(m: Turn) returns (r: Result<seq<WirePart>, ConvertError>)
    ensures r == UserContent(m)
  {
    var parts: seq<WirePart> := [];
    if m.content.Parts? {
      var raw := m.content.parts;
      for i := 0 to |raw|
        invariant UserParts(raw[..i]) == Ok(parts)
      {
        var p := raw[i];
        assert raw[..i + 1][..i] == raw[..i];
        ghost var was := parts;
        if p.kind == "text" {
          parts := parts + [Text(p.text)];
        } else if p.kind == "image_url" && p.image != "" {
          if !IsDataUrl(p.image) {
            UserPartsStop(raw, i + 1);
            return Err(RemoteImage(p.image));
          }
          parts := parts + [Image(p.image, MimeFromDataUrl(p.image))];
        }
        assert parts == was + UserPart(p);
      }
      assert raw[..|raw|] == raw;
    } else {
      var text := ReadContentText(m);
      if text != "" {
        parts := [Text(text)];
      }
    }
    r := Ok(parts);
  }

  lemma {:induction false} UserPartsStop(parts: seq<Part>, n: nat)
    requires n <= |parts| && UserParts(parts[..n]).Err?
    ensures UserParts(parts) == UserParts(parts[..n])
    decreases |parts| - n
  {
    if n == |parts| {
      assert parts[..n] == parts;
    } else {
      assert parts[..n + 1][..n] == parts[..n];
      UserPartsStop(parts, n + 1);
    }
  }

  // ---------------------------------------------------------------- messages

  /** convertMessages' accumulators. */
  datatype Draft = Draft(system: seq<string>, out: seq<WireMessage>, names: map<string, string>)

  function CallParts(calls: seq<Chat.ToolCallRecord>): seq<WirePart> {
    if calls == [] then [] else
    var last := calls[|calls| - 1];
    CallParts(calls[..|calls| - 1]) + [ToolCall(last.id, last.name, ParsedFrom(last.arguments))]
  }

  function CallNames(names: map<string, string>, calls: seq<Chat.ToolCallRecord>): map<string, string> {
    if calls == [] then names else
    var last := calls[|calls| - 1];
    CallNames(names, calls[..|calls| - 1])[last.id := last.name]
  }

  function ResultName(names: map<string, string>, m: Turn): string {
    if m.name != "" then m.name
    else if m.toolCallId in names && names[m.toolCallId] != "" then names[m.toolCallId]
    else "unknown"
  }

  function Said(out: seq<WireMessage>, role: string, parts: seq<WirePart>): seq<WireMessage> {
    if parts == [] then out else out + [WireMessage(role, parts)]
  }

  function ConvertTurn(d: Draft, m: Turn): Result<Draft, ConvertError> {
    if IsSystem(m) then
      Ok(if ContentText(m) != "" then d.(system := d.system + [ContentText(m)]) else d)
    else if m.role == "user" then
      var parts := UserContent(m);
      if parts.Err? then Err(parts.error) else Ok(d.(out := Said(d.out, "user", parts.value)))
    else if m.role == "assistant" then
      Ok(d.(out := Said(d.out, "assistant", AssistantContent(m) + CallParts(m.toolCalls)),
            names := CallNames(d.names, m.toolCalls)))
    else if m.role == "tool" then
      Ok(d.(out := d.out + [WireMessage("tool", [ToolResult(m.toolCallId, ResultName(d.names, m), ContentText(m))])]))
    else Err(UnsupportedRole(m.role))
  }

  function Convert(msgs: seq<Turn>): Result<Draft, ConvertError> {
    if msgs == [] then Ok(Draft([], [], map[])) else
    var before := Convert(msgs[..|msgs| - 1]);
    if before.Err? then before else ConvertTurn(before.value, msgs[|msgs| - 1])
  }

  /** The texts joined with newlines. */
  function Joined(texts: seq<string>): string {
    if texts == [] then ""
    else if |texts| == 1 then texts[0]
    else Joined(texts[..|texts| - 1]) + "\n" + texts[|texts| - 1]
  }

  lemma {:induction false} ConvertStop(msgs: seq<Turn>, n: nat)
    requires n <= |msgs| && Convert(msgs[..n]).Err?
    ensures Convert(msgs) == Convert(msgs[..n])
    decreases |msgs| - n
  {
    if n == |msgs| {
      assert msgs[..n] == msgs;
    } else {
      assert msgs[..n + 1][..n] == msgs[..n];
      ConvertStop(msgs, n + 1);
    }
  }

  method AddAssistant(m: Turn, names: map<string, string>) returns (parts: seq<WirePart>, names': map<string, string>)
    ensures parts == AssistantContent(m) + CallParts(m.toolCalls)
    ensures names' == CallNames(names, m.toolCalls)
  {
    parts := ReadAssistantContent(m);
    names' := names;
    for i := 0 to |m.toolCalls|
      invariant parts == AssistantContent(m) + CallParts(m.toolCalls[..i])
      invariant names' == CallNames(names, m.toolCalls[..i])
    {
      var tc := m.toolCalls[i];
      assert m.toolCalls[..i + 1][..i] == m.toolCalls[..i];
      names' := names'[tc.id := tc.name];
      parts := parts + [ToolCall(tc.id, tc.name, ParsedFrom(tc.arguments))];
    }
    assert m.toolCalls[..|m.toolCalls|] == m.toolCalls;
  }

  method ConvertMessages(msgs: seq<Turn>) returns (r: Result<(string, seq<WireMessage>), ConvertError>)
    ensures var d := Convert(msgs);
            r == if d.Err? then Err(d.error) else Ok((Joined(d.value.system), d.value.out))
  {
    var system: seq<string>, out: seq<WireMessage>, names: map<string, string> := [], [], map[];
    for i := 0 to |msgs|
      invariant Convert(msgs[..i]) == Ok(Draft(system, out, names))
    {
      var m := msgs[i];
      assert msgs[..i + 1][..i] == msgs[..i];
      if m.role == "system" || m.role == "developer" {
        var text := ReadContentText(m);
        if text != "" {
          system := system + [text];
        }
      } else if m.role == "user" {
        var parts := ReadUserContent(m);
        if parts.Err? {
          ConvertStop(msgs, i + 1);
          return Err(parts.error);
        }
        if |parts.value| > 0 {
          out := out + [WireMessage("user", parts.value)];
        }
      } else if m.role == "assistant" {
        var parts;
        parts, names := AddAssistant(m, names);
        if |parts| > 0 {
          out := out + [WireMessage("assistant", parts)];
        }
      } else if m.role == "tool" {
        var name := m.name;
        if name == "" && m.toolCallId in names {
          name := names[m.toolCallId];
        }
        if name == "" {
          name := "unknown";
        }
        var text := ReadContentText(m);
        out := out + [WireMessage("tool", [ToolResult(m.toolCallId, name, text)])];
      } else {
        ConvertStop(msgs, i + 1);
        return Err(UnsupportedRole(m.role));
      }
    }
    assert msgs[..|msgs|] == msgs;
    r := Ok((Joined(system), out));
  }

  // ---------------------------------------------------------------- the system prompt

  predicate BadMark(p: Part) {
    p.cache.Some? && (p.kind != "text" || p.cache.value != "ephemeral")
  }

  predicate MarkedText(p: Part) {
    p.kind == "text" && p.cache.Some?
  }

  /** A system message whose cache_control the upstream would not accept. */
  predicate BadlyMarked(m: Turn) {
    IsSystem(m) && m.content.Parts? && exists i :: 0 <= i < |m.content.parts| && BadMark(m.content.parts[i])
  }

  predicate Marked(m: Turn) {
    IsSystem(m) && m.content.Parts? && exists i :: 0 <= i < |m.content.parts| && MarkedText(m.content.parts[i])
  }

  lemma OnlySystemIsMarked(m: Turn)
    ensures Marked(m) || BadlyMarked(m) ==> IsSystem(m)
  {
  }

  function TextSections(parts: seq<Part>): seq<SystemPart> {
    if parts == [] then [] else
    var last := parts[|parts| - 1];
    var before := TextSections(parts[..|parts| - 1]);
    if last.kind == "text" then before + [SystemPart(last.text, last.cache)] else before
  }

  function OwnSections(m: Turn): seq<SystemPart> {
    if m.content.Parts? then TextSections(m.content.parts)
    else if ContentText(m) != "" then [SystemPart(ContentText(m), None)]
    else []
  }

  /** The separator goes at the end of the last section. */
  function WithBreak(sections: seq<SystemPart>): seq<SystemPart> {
    if sections == [] then [] else
    var last := |sections| - 1;
    sections[last := sections[last].(text := sections[last].text + "\n")]
  }

  function SystemSections(msgs: seq<Turn>): seq<SystemPart> {
    if msgs == [] then [] else
    var before := SystemSections(msgs[..|msgs| - 1]);
    var last := msgs[|msgs| - 1];
    if IsSystem(last) && ContentText(last) != "" then WithBreak(before) + OwnSections(last) else before
  }

  /** One system message's sections and whether it carries a mark; Err for an unacceptable one. */
  method ReadSections(m: Turn) returns (r: Result<(seq<SystemPart>, bool), ConvertError>)
    requires IsSystem(m)
    ensures r == if BadlyMarked(m) then Err(BadCacheControl) else Ok((OwnSections(m), Marked(m)))
  {
    var parts: seq<SystemPart>, marked := [], false;
    if m.content.Parts? {
      var raw := m.content.parts;
      for i := 0 to |raw|
        invariant parts == TextSections(raw[..i])
        invariant forall j :: 0 <= j < i ==> !BadMark(raw[j])
        invariant marked <==> exists j :: 0 <= j < i && MarkedText(raw[j])
      {
        var p := raw[i];
        assert raw[..i + 1][..i] == raw[..i];
        if p.cache.Some? && (p.kind != "text" || p.cache.value != "ephemeral") {
          assert BadMark(raw[i]);
          return Err(BadCacheControl);
        }
        if p.kind == "text" {
          parts := parts + [SystemPart(p.text, p.cache)];
          marked := marked || p.cache.Some?;
        }
        assert MarkedText(raw[i]) ==> marked;
      }
      assert raw[..|raw|] == raw;
    } else {
      var text := ReadContentText(m);
      if text != "" {
        parts := [SystemPart(text, None)];
      }
    }
    r := Ok((parts, marked));
  }

  /** convertSystem: the sectioned form if any system text is marked for caching, else the fallback. */
  function SystemForm(msgs: seq<Turn>, fallback: string): WireSystem {
    if (exists i :: 0 <= i < |msgs| && Marked(msgs[i])) && SystemSections(msgs) != []
    then Sections(SystemSections(msgs))
    else Whole(if fallback == "" then " " else fallback)
  }

  /** Appends a message's sections after a separator; an empty message is skipped. */
  method JoinSections(sections: seq<SystemPart>, m: Turn, own: seq<SystemPart>) returns (joined: seq<SystemPart>)
    ensures joined == if ContentText(m) != "" then WithBreak(sections) + own else sections
  {
    var text := ReadContentText(m);
    if text == "" {
      return sections;
    }
    joined := sections;
    if |joined| > 0 {
      var last := |joined| - 1;
      joined := joined[last := joined[last].(text := joined[last].text + "\n")];
    }
    joined := joined + own;
  }

  method ConvertSystem(msgs: seq<Turn>, fallback: string) returns (r: Result<WireSystem, ConvertError>)
    ensures r == if exists i :: 0 <= i < |msgs| && BadlyMarked(msgs[i]) then Err(BadCacheControl)
                 else Ok(SystemForm(msgs, fallback))
  {
    hide Marked, BadlyMarked, OwnSections, ContentText, WithBreak;
    var sections: seq<SystemPart>, marked := [], false;
    for i := 0 to |msgs|
      invariant sections == SystemSections(msgs[..i])
      invariant forall j :: 0 <= j < i ==> !BadlyMarked(msgs[j])
      invariant marked <==> exists j :: 0 <= j < i && Marked(msgs[j])
    {
      var m := msgs[i];
      assert msgs[..i + 1][..i] == msgs[..i];
      OnlySystemIsMarked(msgs[i]);
      if m.role == "system" || m.role == "developer" {
        var own := ReadSections(m);
        if own.Err? {
          assert BadlyMarked(msgs[i]);
          return Err(own.error);
        }
        assert own.value.1 == Marked(msgs[i]);
        marked := marked || own.value.1;
        sections := JoinSections(sections, m, own.value.0);
      }
    }
    assert msgs[..|msgs|] == msgs;
    if marked && |sections| > 0 {
      return Ok(Sections(sections));
    }
    r := Ok(Whole(if fallback == "" then " " else fallback));
  }

  // ---------------------------------------------------------------- the conversation root

  /** What one message contributes to the root's preimage. */
  function RootEntry(m: Turn): string {
    (if IsSystem(m) then "system" else m.role) + "\0" + (if ContentText(m) != "" then ContentText(m) else m.raw) + "\0"
  }

  /** The preimage: leading system messages and the first other message. */
  function RootPreimage(msgs: seq<Turn>): string {
    if msgs == [] then ""
    else if IsSystem(msgs[0]) then RootEntry(msgs[0]) + RootPreimage(msgs[1..])
    else RootEntry(msgs[0])
  }

  method ReadRootEntry(m: Turn) returns (entry: string)
    ensures entry == RootEntry(m)
  {
    var content := ReadContentText(m);
    if content == "" {
      content := m.raw;
    }
    var tag := m.role;
    if m.role == "system" || m.role == "developer" {
      tag := "system";
    }
    entry := tag + "\0" + content + "\0";
  }

  /** ConversationRoot up to the hash. */
  method ConversationRoot(msgs: seq<Turn>) returns (preimage: string)
    ensures preimage == RootPreimage(msgs)
  {
    hide RootEntry;
    preimage := "";
    var i := 0;
    while i < |msgs|
      invariant 0 <= i <= |msgs|
      invariant preimage + RootPreimage(msgs[i..]) == RootPreimage(msgs)
    {
      assert msgs[i..][0] == msgs[i] && msgs[i..][1..] == msgs[i + 1..];
      var entry := ReadRootEntry(msgs[i]);
      if msgs[i].role != "system" && msgs[i].role != "developer" {
        return preimage + entry;
      }
      assert preimage + (entry + RootPreimage(msgs[i + 1..])) == (preimage + entry) + RootPreimage(msgs[i + 1..]);
      preimage := preimage + entry;
      i := i + 1;
    }
  }
}
