/** Which finish reasons the proxy recognises, however an upstream pads or capitalises them. */
module StreamTheorems {
  import opened Wrappers
  import opened Stream

  /** The 25 characters with the Unicode property White_Space. */
  const WHITESPACE :=
    "\t\n\U{000B}\U{000C}\r \U{0085}\U{00A0}\U{1680}"
    + "\U{2000}\U{2001}\U{2002}\U{2003}\U{2004}\U{2005}\U{2006}\U{2007}\U{2008}\U{2009}\U{200A}"
    + "\U{2028}\U{2029}\U{202F}\U{205F}\U{3000}"

  /** Only these are spaces; a string is blank if it has nothing else. */
  lemma BlankExactly(s: string)
    ensures Blank(s) <==> forall c :: c in s ==> c in WHITESPACE
  {
    forall c: char
      ensures IsSpace(c) <==> c in WHITESPACE
    {
      SpaceExactly(c);
    }
    hide IsSpace;
    assert forall i :: 0 <= i < |s| ==> s[i] in s;
  }

  lemma SpaceExactly(c: char)
    ensures IsSpace(c) <==> c in WHITESPACE
  {
    var first := "\t\n\U{000B}\U{000C}\r \U{0085}\U{00A0}\U{1680}";
    var second := "\U{2000}\U{2001}\U{2002}\U{2003}\U{2004}\U{2005}\U{2006}\U{2007}\U{2008}\U{2009}\U{200A}";
    var third := "\U{2028}\U{2029}\U{202F}\U{205F}\U{3000}";
    assert WHITESPACE == first + second + third;
    assert c in first <==> '\t' <= c <= '\r' || c == ' ' || c == '\U{0085}' || c == '\U{00A0}' || c == '\U{1680}';
    assert c in second <==> '\U{2000}' <= c <= '\U{200A}';
    assert c in third <==>
             c == '\U{2028}' || c == '\U{2029}' || c == '\U{202F}' || c == '\U{205F}' || c == '\U{3000}';
  }

  // ---------------------------------------------------------------- trimming

  predicate Ends(s: string) {
    s != "" && !IsSpace(s[0]) && !IsSpace(s[|s| - 1])
  }

  lemma {:induction false} TrimLeftPadding(a: string, s: string)
    requires Blank(a) && s != "" && !IsSpace(s[0])
    ensures TrimLeft(a + s) == s
  {
    if a == "" {
      assert a + s == s;
    } else {
      assert (a + s)[1..] == a[1..] + s && (a + s)[0] == a[0];
      TrimLeftPadding(a[1..], s);
    }
  }

  lemma {:induction false} TrimRightPadding(s: string, b: string)
    requires Blank(b) && s != "" && !IsSpace(s[|s| - 1])
    ensures TrimRight(s + b) == s
  {
    if b == "" {
      assert s + b == s;
    } else {
      var init := b[..|b| - 1];
      assert (s + b)[..|s + b| - 1] == s + init && (s + b)[|s + b| - 1] == b[|b| - 1];
      TrimRightPadding(s, init);
    }
  }

  lemma TrimPadding(a: string, s: string, b: string)
    requires Blank(a) && Blank(b) && Ends(s)
    ensures TrimSpace(a + s + b) == s
  {
    assert a + s + b == a + (s + b) && (s + b)[0] == s[0];
    TrimLeftPadding(a, s + b);
    TrimRightPadding(s, b);
  }

  lemma {:induction false} TrimLeftParts(s: string) returns (a: string)
    ensures s == a + TrimLeft(s) && Blank(a)
  {
    if s != "" && IsSpace(s[0]) {
      var rest := TrimLeftParts(s[1..]);
      a := [s[0]] + rest;
    } else {
      a := "";
    }
  }

  lemma {:induction false} TrimRightParts(s: string) returns (b: string)
    ensures s == TrimRight(s) + b && Blank(b)
  {
    if s != "" && IsSpace(s[|s| - 1]) {
      var rest := TrimRightParts(s[..|s| - 1]);
      b := rest + [s[|s| - 1]];
    } else {
      b := "";
    }
  }

  // ---------------------------------------------------------------- refusals

  /** c is the letter, small or capital, or a character that a lower-casing takes to it. */
  predicate Letter(c: char, letter: char) {
    || c == letter || ('a' <= letter <= 'z' && c == letter - 'a' + 'A')
    || (letter == 'i' && c == '\U{0130}') || (letter == 'k' && c == '\U{212A}')
  }

  /** The name in any capitalisation. */
  predicate Spells(s: string, name: string) {
    |s| == |name| && forall k :: 0 <= k < |s| ==> Letter(s[k], name[k])
  }

  predicate SpellsRefusal(s: string) {
    Spells(s, "refusal") || Spells(s, "content-filter") || Spells(s, "content_filter")
  }

  /** A refusal's name, capitalised in any way and with white space around it. */
  ghost predicate NamesRefusal(reason: string) {
    exists a, core, b :: reason == a + core + b && Blank(a) && Blank(b) && SpellsRefusal(core)
  }

  /** A lower-case name: letters, and punctuation no letter is lowered to. */
  predicate Small(name: string) {
    forall k :: 0 <= k < |name| ==> 'a' <= name[k] <= 'z' || name[k] == '-' || name[k] == '_'
  }

  lemma LoweredExactly(s: string, name: string)
    requires Small(name)
    ensures ToLower(s) == name <==> Spells(s, name)
  {
    forall k | 0 <= k < |s| && |s| == |name|
      ensures ToLower(s)[k] == name[k] <==> Letter(s[k], name[k])
    {
      LoweredChar(s[k], name[k]);
    }
    hide LowerChar, Letter;
    if ToLower(s) == name {
      assert |s| == |name|;
    }
    if Spells(s, name) {
      assert |ToLower(s)| == |name|;
    }
  }

  lemma LoweredChar(c: char, letter: char)
    requires 'a' <= letter <= 'z' || letter == '-' || letter == '_'
    ensures LowerChar(c) == letter <==> Letter(c, letter)
  {
  }

  lemma RefusalNames(s: string)
    ensures ToLower(s) in ["refusal", "content-filter", "content_filter"] <==> SpellsRefusal(s)
    ensures SpellsRefusal(s) ==> Ends(s)
  {
    LoweredExactly(s, "refusal");
    LoweredExactly(s, "content-filter");
    LoweredExactly(s, "content_filter");
    hide ToLower;
    if SpellsRefusal(s) {
      SpelledEnds(s);
    }
  }

  lemma SpelledEnds(s: string)
    requires SpellsRefusal(s)
    ensures Ends(s)
  {
    if Spells(s, "refusal") {
      assert Letter(s[0], 'r') && Letter(s[6], 'l');
    } else if Spells(s, "content-filter") {
      assert Letter(s[0], 'c') && Letter(s[13], 'r');
    } else {
      assert Spells(s, "content_filter") && Letter(s[0], 'c') && Letter(s[13], 'r');
    }
  }

  /** A refusal is recognised in any capitalisation and padding, and nothing else is one. */
  lemma RefusalExactly(reason: string)
    ensures IsRefusalFinishReason(reason) <==> NamesRefusal(reason)
  {
    hide ToLower, IsSpace, SpellsRefusal, Ends, TrimLeft, TrimRight;
    RefusalNames(TrimSpace(reason));
    if IsRefusalFinishReason(reason) {
      var a := TrimLeftParts(reason);
      var b := TrimRightParts(TrimLeft(reason));
      assert reason == a + TrimSpace(reason) + b;
    }
    if NamesRefusal(reason) {
      var a, core, b :| reason == a + core + b && Blank(a) && Blank(b) && SpellsRefusal(core);
      RefusalNames(core);
      TrimPadding(a, core, b);
    }
  }

  /** The reason a finish event gives, by its two names; an unknown name is no reason. */
  lemma FinishReasons(ev: Event)
    ensures var refused, reason := NamesRefusal(ev.rawFinishReason) || NamesRefusal(ev.finishReason),
                                   OpenAIFinishReason(ev);
            && (reason == Some(ContentFilter) <==> refused)
            && (reason == Some(Stop) <==> !refused && ev.finishReason in {"stop", "end_turn", ""})
            && (reason == Some(Length) <==> !refused && ev.finishReason in {"length", "max_tokens"})
            && (reason == Some(ToolCalls) <==> !refused && ev.finishReason in {"tool-calls", "tool_use", "tool_calls"})
            && (reason == None <==>
                  !refused && ev.finishReason !in {"stop", "end_turn", "", "length", "max_tokens",
                                                   "tool-calls", "tool_use", "tool_calls"})
  {
    RefusalExactly(ev.rawFinishReason);
    RefusalExactly(ev.finishReason);
    hide IsRefusalFinishReason, NamesRefusal;
    assert "tool-calls"[0] == 't' && "tool_use"[0] == 't' && "tool_calls"[0] == 't';
    assert "length"[0] == 'l' && "max_tokens"[0] == 'm' && "stop"[0] == 's' && "end_turn"[0] == 'e';
  }
}
