/**
 * Conversion part by part and turn by turn: what is sent upstream is what was received, in
 * order, and which conversations share a root.
 */
module ContentTheorems {
  import opened Wrappers
  import Chat
  import opened Convert
  import ConvertTheorems

  // ---------------------------------------------------------------- parts

  /** What of a user's part the upstream is sent, if anything. */
  predicate UserKeeps(p: Part) {
    p.kind == "text" || (p.kind == "image_url" && p.image != "")
  }

  predicate AssistantKeeps(p: Part) {
    p.text != "" && (p.kind == "text" || p.kind == "reasoning")
  }

  /** The wire part says what the part says. */
  predicate SaysUser(w: WirePart, p: Part) {
    if p.kind == "text" then w == Text(p.text) else w.Image? && w.url == p.image && w.mime == MimeFromDataUrl(p.image)
  }

  predicate SaysAssistant(w: WirePart, p: Part) {
    w == if p.kind == "text" then Text(p.text) else Reasoning(p.text)
  }

  /** Positions in order. */
  predicate Ascending(at: seq<nat>) {
    forall i, j :: 0 <= i < j < |at| ==> at[i] < at[j]
  }

  /** The wire parts are the kept parts of a user's message at these positions: all of them, in order. */
  ghost predicate UserSent(wire: seq<WirePart>, parts: seq<Part>, at: seq<nat>) {
    && |wire| == |at| && Ascending(at)
    && (forall i :: 0 <= i < |at| ==> at[i] < |parts| && UserKeeps(parts[at[i]]) && SaysUser(wire[i], parts[at[i]]))
    && (forall k :: 0 <= k < |parts| && UserKeeps(parts[k]) ==> k in at)
  }

  ghost predicate AssistantSent(wire: seq<WirePart>, parts: seq<Part>, at: seq<nat>) {
    && |wire| == |at| && Ascending(at)
    && (forall i :: 0 <= i < |at| ==>
          at[i] < |parts| && AssistantKeeps(parts[at[i]]) && SaysAssistant(wire[i], parts[at[i]]))
    && (forall k :: 0 <= k < |parts| && AssistantKeeps(parts[k]) ==> k in at)
  }

  lemma OneMoreUserPart(wire: seq<WirePart>, parts: seq<Part>, at: seq<nat>, p: Part)
    requires UserSent(wire, parts, at) && !Remote(p)
    ensures UserKeeps(p) ==> UserSent(wire + UserPart(p), parts + [p], at + [|parts|])
    ensures !UserKeeps(p) ==> UserSent(wire + UserPart(p), parts + [p], at)
  {
    hide MimeFromDataUrl;
    assert forall k :: k in at ==> k in at + [|parts|];
    assert wire + [] == wire;
  }

  lemma NoUserParts()
    ensures UserParts([]) == Ok([]) && UserSent([], [], [])
  {
  }

  lemma LastUserPart(parts: seq<Part>)
    requires parts != [] && UserParts(parts).Ok?
    ensures var init, last := parts[..|parts| - 1], parts[|parts| - 1];
            && parts == init + [last] && UserParts(init).Ok? && !Remote(last)
            && UserParts(parts).value == UserParts(init).value + UserPart(last)
  {
    hide UserPart, Remote;
  }

  /** A user's text and images are sent in the order they came, images with their own type. */
  lemma {:induction false} UserPartsAreSent(parts: seq<Part>) returns (at: seq<nat>)
    requires UserParts(parts).Ok?
    ensures UserSent(UserParts(parts).value, parts, at)
  {
    hide *;
    if parts == [] {
      at := [];
      NoUserParts();
    } else {
      var init, last := parts[..|parts| - 1], parts[|parts| - 1];
      LastUserPart(parts);
      at := UserPartsAreSent(init);
      OneMoreUserPart(UserParts(init).value, init, at, last);
      if UserKeeps(last) {
        at := at + [|init|];
      }
    }
  }

  lemma OneMoreAssistantPart(wire: seq<WirePart>, parts: seq<Part>, at: seq<nat>, p: Part)
    requires AssistantSent(wire, parts, at)
    ensures AssistantKeeps(p) ==> AssistantSent(wire + AssistantPart(p), parts + [p], at + [|parts|])
    ensures !AssistantKeeps(p) ==> AssistantSent(wire + AssistantPart(p), parts + [p], at)
  {
    assert forall k :: k in at ==> k in at + [|parts|];
    assert wire + [] == wire;
  }

  lemma NoAssistantParts()
    ensures AssistantParts([]) == [] && AssistantSent([], [], [])
  {
  }

  lemma LastAssistantPart(parts: seq<Part>)
    requires parts != []
    ensures var init, last := parts[..|parts| - 1], parts[|parts| - 1];
            parts == init + [last] && AssistantParts(parts) == AssistantParts(init) + AssistantPart(last)
  {
    hide AssistantPart;
  }

  lemma {:induction false} AssistantPartsAreSent(parts: seq<Part>) returns (at: seq<nat>)
    ensures AssistantSent(AssistantParts(parts), parts, at)
  {
    hide *;
    if parts == [] {
      at := [];
      NoAssistantParts();
    } else {
      var init, last := parts[..|parts| - 1], parts[|parts| - 1];
      LastAssistantPart(parts);
      at := AssistantPartsAreSent(init);
      OneMoreAssistantPart(AssistantParts(init), init, at, last);
      if AssistantKeeps(last) {
        at := at + [|init|];
      }
    }
  }

  /** The separate reasoning leads unless it is empty or repeats the reasoning among the parts. */
  predicate Leads(m: Turn) {
    m.reasoning != "" && !(m.content.Parts? && m.reasoning == KindText(m.content.parts, "reasoning"))
  }

  /** What an assistant's turn says: its reasoning field if that leads, then its own text or parts in order. */
  lemma AssistantIsSent(m: Turn) returns (at: seq<nat>)
    ensures var lead := if Leads(m) then [Reasoning(m.reasoning)] else [];
            var wire := AssistantContent(m);
            && |wire| >= |lead| && wire[..|lead|] == lead
            && (m.content.Parts? ==> AssistantSent(wire[|lead|..], m.content.parts, at))
            && (!m.content.Parts? ==>
                  wire[|lead|..] == if m.content.Plain? && m.content.text != "" then [Text(m.content.text)] else [])
  {
    at := [];
    if m.content.Parts? {
      at := AssistantPartsAreSent(m.content.parts);
    }
    hide AssistantSent, AssistantParts, KindText;
    var lead := if Leads(m) then [Reasoning(m.reasoning)] else [];
    var rest := if m.content.Parts? then AssistantParts(m.content.parts)
                else if m.content.Plain? && m.content.text != "" then [Text(m.content.text)] else [];
    assert AssistantContent(m) == lead + rest;
  }

  // ---------------------------------------------------------------- turns

  /** What a turn is sent as, if anything. */
  ghost predicate Sends(m: Turn, w: WireMessage) {
    && w.role == m.role
    && match m.role
       case "user" => UserContent(m) == Ok(w.content)
       case "assistant" =>
         && |w.content| >= |AssistantContent(m)| && w.content[..|AssistantContent(m)|] == AssistantContent(m)
         && ConvertTheorems.AreCalls(w.content[|AssistantContent(m)|..], m.toolCalls)
       case "tool" =>
         && |w.content| == 1 && w.content[0].ToolResult? && w.content[0].id == m.toolCallId
         && w.content[0].output == ContentText(m) && w.content[0].name != ""
       case _ => false
  }

  /** The turn has something to send. */
  predicate IsSent(m: Turn) {
    || m.role == "tool"
    || (m.role == "assistant" && (AssistantContent(m) != [] || m.toolCalls != []))
    || (m.role == "user" && UserContent(m) != Ok([]))
  }

  ghost predicate TurnsSent(out: seq<WireMessage>, msgs: seq<Turn>, at: seq<nat>) {
    && |out| == |at| && Ascending(at)
    && (forall i :: 0 <= i < |at| ==> at[i] < |msgs| && Sends(msgs[at[i]], out[i]))
    && (forall k :: 0 <= k < |msgs| && IsSent(msgs[k]) ==> k in at)
  }

  /** The turn adds the one message it is sent as, or nothing. */
  ghost predicate Adds(m: Turn, before: seq<WireMessage>, after: seq<WireMessage>) {
    if IsSent(m) then |after| == |before| + 1 && after[..|before|] == before && Sends(m, after[|before|])
    else after == before
  }

  lemma UserTurn(d: Draft, m: Turn)
    requires m.role == "user" && ConvertTurn(d, m).Ok?
    ensures Adds(m, d.out, ConvertTurn(d, m).value.out)
  {
    hide UserContent, AssistantContent, CallParts, ContentText, CallNames;
  }

  lemma AssistantTurn(d: Draft, m: Turn)
    requires m.role == "assistant"
    ensures Adds(m, d.out, ConvertTurn(d, m).value.out)
  {
    ConvertTheorems.CallPartsAt(m.toolCalls);
    assert CallParts(m.toolCalls) == [] <==> m.toolCalls == [];
    hide UserContent, AssistantContent, CallParts, ContentText, CallNames;
    var own := AssistantContent(m);
    var said := own + CallParts(m.toolCalls);
    assert said[..|own|] == own && said[|own|..] == CallParts(m.toolCalls);
  }

  lemma ToolTurn(d: Draft, m: Turn)
    requires m.role == "tool"
    ensures Adds(m, d.out, ConvertTurn(d, m).value.out)
  {
    hide UserContent, AssistantContent, CallParts, ContentText, CallNames;
  }

  lemma SystemTurn(d: Draft, m: Turn)
    requires IsSystem(m)
    ensures Adds(m, d.out, ConvertTurn(d, m).value.out)
  {
    hide UserContent, AssistantContent, CallParts, ContentText, CallNames;
  }

  lemma OneTurn(d: Draft, m: Turn)
    requires ConvertTurn(d, m).Ok?
    ensures Adds(m, d.out, ConvertTurn(d, m).value.out)
  {
    assert IsSystem(m) || m.role in {"user", "assistant", "tool"};
    hide *;
    if IsSystem(m) {
      SystemTurn(d, m);
    } else if m.role == "user" {
      UserTurn(d, m);
    } else if m.role == "assistant" {
      AssistantTurn(d, m);
    } else {
      ToolTurn(d, m);
    }
  }

  lemma TurnSent(out: seq<WireMessage>, w: WireMessage, msgs: seq<Turn>, at: seq<nat>, m: Turn)
    requires TurnsSent(out, msgs, at) && Sends(m, w)
    ensures TurnsSent(out + [w], msgs + [m], at + [|msgs|])
  {
    hide Sends, IsSent;
    assert forall k :: k in at ==> k in at + [|msgs|];
  }

  lemma TurnNotSent(out: seq<WireMessage>, msgs: seq<Turn>, at: seq<nat>, m: Turn)
    requires TurnsSent(out, msgs, at) && !IsSent(m)
    ensures TurnsSent(out, msgs + [m], at)
  {
    hide Sends, IsSent;
  }

  lemma OneMoreTurn(d: Draft, m: Turn, msgs: seq<Turn>, at: seq<nat>) returns (more: seq<nat>)
    requires TurnsSent(d.out, msgs, at) && ConvertTurn(d, m).Ok?
    ensures TurnsSent(ConvertTurn(d, m).value.out, msgs + [m], more)
  {
    OneTurn(d, m);
    hide ConvertTurn, TurnsSent, IsSent, Sends;
    var after := ConvertTurn(d, m).value.out;
    if IsSent(m) {
      assert after == d.out + [after[|d.out|]];
      TurnSent(d.out, after[|d.out|], msgs, at, m);
      more := at + [|msgs|];
    } else {
      TurnNotSent(d.out, msgs, at, m);
      more := at;
    }
  }

  lemma LastTurn(msgs: seq<Turn>)
    requires msgs != [] && Convert.Convert(msgs).Ok?
    ensures var before := Convert.Convert(msgs[..|msgs| - 1]);
            before.Ok? && ConvertTurn(before.value, msgs[|msgs| - 1]) == Convert.Convert(msgs)
  {
    hide ConvertTurn;
  }

  lemma NoTurns()
    ensures Convert.Convert([]).Ok? && Convert.Convert([]).value.out == [] && TurnsSent([], [], [])
  {
  }

  /** Every turn that is not a system message and says something is sent once, in order, under its own role. */
  lemma {:induction false} TurnsAreSent(msgs: seq<Turn>) returns (at: seq<nat>)
    requires Convert.Convert(msgs).Ok?
    ensures TurnsSent(Convert.Convert(msgs).value.out, msgs, at)
  {
    hide *;
    if msgs == [] {
      at := [];
      NoTurns();
    } else {
      LastTurn(msgs);
      var init := msgs[..|msgs| - 1];
      at := TurnsAreSent(init);
      at := OneMoreTurn(Convert.Convert(init).value, msgs[|msgs| - 1], init, at);
      assert init + [msgs[|msgs| - 1]] == msgs;
    }
  }

  // ---------------------------------------------------------------- cache marks

  /** The cache marks of the text parts, in order. */
  function PartMarks(parts: seq<Part>): seq<Option<string>> {
    if parts == [] then [] else
    var last := parts[|parts| - 1];
    PartMarks(parts[..|parts| - 1]) + if last.kind == "text" then [last.cache] else []
  }

  /** The marks of a system message that is not empty: one for each of its text parts. */
  function OwnMarks(m: Turn): seq<Option<string>> {
    if m.role !in {"system", "developer"} || ContentText(m) == "" then []
    else if m.content.Parts? then PartMarks(m.content.parts)
    else [None]
  }

  /** The marks the sections should carry. */
  function MarksIn(msgs: seq<Turn>): seq<Option<string>> {
    if msgs == [] then [] else MarksIn(msgs[..|msgs| - 1]) + OwnMarks(msgs[|msgs| - 1])
  }

  function Marks(sections: seq<SystemPart>): seq<Option<string>> {
    seq(|sections|, i requires 0 <= i < |sections| => sections[i].cache)
  }

  lemma {:induction false} PartMarksKept(parts: seq<Part>)
    ensures Marks(TextSections(parts)) == PartMarks(parts)
  {
    if parts != [] {
      PartMarksKept(parts[..|parts| - 1]);
    }
  }

  lemma MarksAppend(a: seq<SystemPart>, b: seq<SystemPart>)
    ensures Marks(a + b) == Marks(a) + Marks(b) && Marks(WithBreak(a)) == Marks(a)
  {
  }

  lemma OwnMarksKept(m: Turn)
    ensures OwnMarks(m) == if IsSystem(m) && ContentText(m) != "" then Marks(OwnSections(m)) else []
  {
    if m.content.Parts? {
      PartMarksKept(m.content.parts);
    }
    hide ContentText, TextSections, PartMarks;
  }

  lemma LastSections(msgs: seq<Turn>)
    requires msgs != []
    ensures var before, last := SystemSections(msgs[..|msgs| - 1]), msgs[|msgs| - 1];
            SystemSections(msgs) ==
              if IsSystem(last) && ContentText(last) != "" then WithBreak(before) + OwnSections(last) else before
    ensures MarksIn(msgs) == MarksIn(msgs[..|msgs| - 1]) + OwnMarks(msgs[|msgs| - 1])
  {
    hide ContentText, WithBreak, OwnSections, OwnMarks;
  }

  /** Each section carries the mark of its own text part, and no other. */
  lemma {:induction false} MarksAreKept(msgs: seq<Turn>)
    ensures Marks(SystemSections(msgs)) == MarksIn(msgs)
  {
    if msgs != [] {
      var init, last := msgs[..|msgs| - 1], msgs[|msgs| - 1];
      LastSections(msgs);
      hide *;
      MarksAreKept(init);
      MarksAppend(SystemSections(init), []);
      MarksAppend(WithBreak(SystemSections(init)), OwnSections(last));
      OwnMarksKept(last);
    }
  }

  /** A prompt is refused exactly if a part of a system message has a mark and is no text, or a mark of another type. */
  lemma RefusedExactly(msgs: seq<Turn>)
    ensures (exists i :: 0 <= i < |msgs| && BadlyMarked(msgs[i])) <==>
              exists i, j ::
                && 0 <= i < |msgs| && msgs[i].role in {"system", "developer"} && msgs[i].content.Parts?
                && 0 <= j < |msgs[i].content.parts| && msgs[i].content.parts[j].cache.Some?
                && (msgs[i].content.parts[j].kind != "text" || msgs[i].content.parts[j].cache != Some("ephemeral"))
  {
    if i :| 0 <= i < |msgs| && BadlyMarked(msgs[i]) {
      var j :| 0 <= j < |msgs[i].content.parts| && BadMark(msgs[i].content.parts[j]);
    }
    if i, j :| && 0 <= i < |msgs| && msgs[i].role in {"system", "developer"} && msgs[i].content.Parts?
               && 0 <= j < |msgs[i].content.parts| && msgs[i].content.parts[j].cache.Some?
               && (msgs[i].content.parts[j].kind != "text" || msgs[i].content.parts[j].cache != Some("ephemeral")) {
      assert BadMark(msgs[i].content.parts[j]) && BadlyMarked(msgs[i]);
    }
  }

  // ---------------------------------------------------------------- the conversation root

  predicate System(m: Turn) {
    m.role == "system" || m.role == "developer"
  }

  /** What the root sees of a message: system or its role, and its text, or its raw content if it has none. */
  function Seen(m: Turn): (string, string) {
    (if System(m) then "system" else m.role, if ContentText(m) == "" then m.raw else ContentText(m))
  }

  /** The conversations begin alike: the same system messages, then the same first other message. */
  predicate BeginAlike(a: seq<Turn>, b: seq<Turn>) {
    if a == [] || b == [] then a == [] && b == []
    else Seen(a[0]) == Seen(b[0]) && (System(a[0]) ==> BeginAlike(a[1..], b[1..]))
  }

  predicate NoNul(m: Turn) {
    '\0' !in Seen(m).0 && '\0' !in Seen(m).1
  }

  /** Two strings up to their first NUL. */
  lemma {:induction false} NulSeparates(a: string, b: string, x: string, y: string)
    requires '\0' !in a && '\0' !in b && a + "\0" + x == b + "\0" + y
    ensures a == b && x == y
  {
    if a == "" || b == "" {
      assert (a + "\0" + x)[0] == (b + "\0" + y)[0];
      assert (a + "\0" + x)[|a| + 1..] == x && (b + "\0" + y)[|b| + 1..] == y;
    } else {
      assert a[0] == (a + "\0" + x)[0] == (b + "\0" + y)[0] == b[0];
      assert (a + "\0" + x)[1..] == a[1..] + "\0" + x && (b + "\0" + y)[1..] == b[1..] + "\0" + y;
      NulSeparates(a[1..], b[1..], x, y);
      assert a == [a[0]] + a[1..] && b == [b[0]] + b[1..];
    }
  }

  lemma EntriesSeparate(a: Turn, b: Turn, x: string, y: string)
    requires NoNul(a) && NoNul(b)
    ensures RootEntry(a) + x == RootEntry(b) + y <==> Seen(a) == Seen(b) && x == y
  {
    var s, t := Seen(a), Seen(b);
    assert RootEntry(a) == s.0 + "\0" + s.1 + "\0" && RootEntry(b) == t.0 + "\0" + t.1 + "\0";
    hide RootEntry, Seen;
    assert RootEntry(a) + x == s.0 + "\0" + (s.1 + "\0" + x) && RootEntry(b) + y == t.0 + "\0" + (t.1 + "\0" + y);
    if RootEntry(a) + x == RootEntry(b) + y {
      NulSeparates(s.0, t.0, s.1 + "\0" + x, t.1 + "\0" + y);
      NulSeparates(s.1, t.1, x, y);
    }
  }

  /** Without NUL characters, two conversations have the same root preimage exactly if they begin alike. */
  lemma {:induction false} RootExactly(a: seq<Turn>, b: seq<Turn>)
    requires forall m :: m in a || m in b ==> NoNul(m)
    ensures RootPreimage(a) == RootPreimage(b) <==> BeginAlike(a, b)
  {
    if a != [] && b != [] {
      RootExactly(a[1..], b[1..]);
      EntriesSeparate(a[0], b[0], if System(a[0]) then RootPreimage(a[1..]) else "",
                      if System(b[0]) then RootPreimage(b[1..]) else "");
      assert RootEntry(a[0]) + "" == RootEntry(a[0]) && RootEntry(b[0]) + "" == RootEntry(b[0]);
      assert Seen(a[0]) == Seen(b[0]) ==> System(a[0]) == System(b[0]);
      hide RootEntry, Seen, NoNul;
    } else {
      assert a != [] ==> |RootEntry(a[0])| > 0;
      assert b != [] ==> |RootEntry(b[0])| > 0;
      hide NoNul, Seen;
    }
  }

  /** A NUL in a text can make a system prompt alone look like one followed by a user's message. */
  lemma NulConfusesRoots(raw: string)
    ensures var prompt := Turn("system", raw, Plain("a\0user\0b"), "", [], "", "");
            var system := Turn("system", raw, Plain("a"), "", [], "", "");
            var user := Turn("user", raw, Plain("b"), "", [], "", "");
            RootPreimage([prompt]) == RootPreimage([system, user]) && !BeginAlike([prompt], [system, user])
  {
    var prompt := Turn("system", raw, Plain("a\0user\0b"), "", [], "", "");
    var system := Turn("system", raw, Plain("a"), "", [], "", "");
    var user := Turn("user", raw, Plain("b"), "", [], "", "");
    assert [prompt][1..] == [] && [system, user][1..] == [user] && Seen(prompt).1 != Seen(system).1;
    assert "system" + "\0" + "a\0user\0b" + "\0" == "system" + "\0" + "a" + "\0" + ("user" + "\0" + "b" + "\0");
    assert RootPreimage([prompt]) == "system" + "\0" + "a\0user\0b" + "\0" + "";
  }
}
