/**
 * The reader against the writer of the lines: what was written is what is read, lines that
 * carry nothing make no difference, and a corrupt one stops it.
 */
module ReaderTheorems {
  import opened Wrappers
  import Stream
  import opened Reader

  /** The line, once trimmed, is a JSON object that decodes to this event. */
  predicate Carries(c: Codec, raw: Bytes, ev: Stream.Event) {
    var line := c.trim(raw);
    line != [] && line[0] == 123 && c.decode(line) == Typed(ev)
  }

  /** The trimmed line is empty, [DONE], a comment, or a JSON object that is no event or unimportant noise. */
  predicate CarriesNothing(c: Codec, raw: Bytes) {
    var line := c.trim(raw);
    || line == [] || line == [91, 68, 79, 78, 69, 93] || line[0] == 58
    || (line[0] == 123 && (c.decode(line) == Untyped || (c.decode(line).Undecodable? && !c.decode(line).critical)))
  }

  /** The trimmed line is an undecodable tool or terminal event; valid says whether it is JSON at all. */
  predicate Corrupt(c: Codec, raw: Bytes, valid: bool) {
    var line := c.trim(raw);
    line != [] && line[0] == 123 && c.decode(line) == Undecodable(valid, true)
  }

  /** The lines, each ended by a newline. */
  function Terminated(lines: seq<Bytes>): Bytes {
    if lines == [] then [] else lines[0] + [10] + Terminated(lines[1..])
  }

  /** What each complete line carries, if anything. */
  ghost predicate Transcript(c: Codec, lines: seq<Bytes>, found: seq<Option<Stream.Event>>) {
    && |lines| == |found|
    && forall i :: 0 <= i < |lines| ==> Entry(c, lines[i], found[i])
  }

  predicate Entry(c: Codec, line: Bytes, found: Option<Stream.Event>) {
    10 !in line && if found.Some? then Carries(c, line + [10], found.value) else CarriesNothing(c, line + [10])
  }

  function Present(found: seq<Option<Stream.Event>>): seq<Stream.Event> {
    if found == [] then []
    else (if found[0].Some? then [found[0].value] else []) + Present(found[1..])
  }

  lemma LineEndAt(line: Bytes, rest: Bytes)
    requires 10 !in line
    ensures LineEnd(line + [10] + rest) == |line|
  {
    var data := line + [10] + rest;
    assert data[|line|] == 10 && forall i :: 0 <= i < |line| ==> data[i] == line[i];
  }

  lemma NoLineEnd(last: Bytes)
    requires 10 !in last
    ensures LineEnd(last) == |last|
  {
  }

  /** A complete line in front of the input. */
  lemma FirstIsRead(c: Codec, line: Bytes, rest: Bytes, end: IoEnd)
    requires 10 !in line
    ensures var data, raw := line + [10] + rest, line + [10];
            Rest(c, data, end) ==
              if Fatal(c, raw, None) then ([], Malformed)
              else (Prepend(EventOn(c, raw), Rest(c, rest, end).0), Rest(c, rest, end).1)
  {
    var data := line + [10] + rest;
    LineEndAt(line, rest);
    assert data[..|line| + 1] == line + [10] && data[|line| + 1..] == rest;
    RestAfterLine(c, data, end);
    hide Rest, Fatal, EventOn, Prepend, LineEnd;
  }

  lemma EntryIsRead(c: Codec, line: Bytes, found: Option<Stream.Event>, rest: Bytes, end: IoEnd)
    requires Entry(c, line, found)
    ensures Rest(c, line + [10] + rest, end) ==
              ((if found.Some? then [found.value] else []) + Rest(c, rest, end).0, Rest(c, rest, end).1)
  {
    FirstIsRead(c, line, rest, end);
    hide Rest;
    assert [] + Rest(c, rest, end).0 == Rest(c, rest, end).0;
  }

  lemma FirstTerminated(lines: seq<Bytes>, rest: Bytes)
    requires lines != []
    ensures Terminated(lines) + rest == lines[0] + [10] + (Terminated(lines[1..]) + rest)
  {
  }

  lemma FirstPresent(found: seq<Option<Stream.Event>>, rest: seq<Stream.Event>)
    requires found != []
    ensures Present(found) + rest ==
              (if found[0].Some? then [found[0].value] else []) + (Present(found[1..]) + rest)
  {
  }

  lemma FirstEntry(c: Codec, lines: seq<Bytes>, found: seq<Option<Stream.Event>>)
    requires Transcript(c, lines, found) && lines != []
    ensures found != [] && Entry(c, lines[0], found[0]) && Transcript(c, lines[1..], found[1..])
  {
    hide Entry;
  }

  /** Behind complete lines the rest of the input is read as if it stood alone. */
  lemma {:induction false} LinesAreRead(
    c: Codec, lines: seq<Bytes>, found: seq<Option<Stream.Event>>, rest: Bytes, end: IoEnd)
    requires Transcript(c, lines, found)
    ensures Rest(c, Terminated(lines) + rest, end) == (Present(found) + Rest(c, rest, end).0, Rest(c, rest, end).1)
  {
    hide Rest, Entry;
    if lines == [] {
      assert Terminated(lines) + rest == rest && Present(found) + Rest(c, rest, end).0 == Rest(c, rest, end).0;
    } else {
      FirstEntry(c, lines, found);
      FirstTerminated(lines, rest);
      FirstPresent(found, Rest(c, rest, end).0);
      hide Transcript, Terminated, Present;
      LinesAreRead(c, lines[1..], found[1..], rest, end);
      EntryIsRead(c, lines[0], found[0], Terminated(lines[1..]) + rest, end);
    }
  }

  /** The last piece of the input, which no newline ends. */
  lemma LastIsRead(c: Codec, last: Bytes, end: IoEnd)
    requires 10 !in last
    ensures CarriesNothing(c, last) ==> Rest(c, last, end) == ([], Ended(end))
    ensures forall ev :: Carries(c, last, ev) ==> Rest(c, last, end) == ([ev], Ended(end))
    ensures forall valid :: Corrupt(c, last, valid) ==>
              Rest(c, last, end) == ([], if end.Broken? && !valid then Ended(end) else Malformed)
  {
    NoLineEnd(last);
    RestAfterLine(c, last, end);
    hide Rest;
    assert forall ev: Stream.Event :: [ev] + [] == [ev];
  }

  /**
   * Everything written is read, in order and nothing else: the events on complete lines,
   * that on an unfinished last line, then the error the input ends with. A corrupt last
   * line is blamed on the peer unless the read was interrupted in the middle of it.
   */
  lemma TranscriptIsRead(c: Codec, lines: seq<Bytes>, found: seq<Option<Stream.Event>>, last: Bytes, end: IoEnd)
    requires Transcript(c, lines, found) && 10 !in last
    ensures var read := Rest(c, Terminated(lines) + last, end);
            && (CarriesNothing(c, last) ==> read == (Present(found), Ended(end)))
            && (forall ev :: Carries(c, last, ev) ==> read == (Present(found) + [ev], Ended(end)))
            && (forall valid :: Corrupt(c, last, valid) ==>
                  read == (Present(found), if end.Broken? && !valid then Ended(end) else Malformed))
  {
    LinesAreRead(c, lines, found, last, end);
    LastIsRead(c, last, end);
    hide Rest, Carries, CarriesNothing, Corrupt, Transcript;
    assert Present(found) + [] == Present(found);
  }

  /** A corrupt complete line ends the reading, whatever follows it. */
  lemma CorruptLineStops(c: Codec, lines: seq<Bytes>, found: seq<Option<Stream.Event>>, bad: Bytes, valid: bool,
                         rest: Bytes, end: IoEnd)
    requires Transcript(c, lines, found) && 10 !in bad && Corrupt(c, bad + [10], valid)
    ensures Rest(c, Terminated(lines) + (bad + [10] + rest), end) == (Present(found), Malformed)
  {
    LinesAreRead(c, lines, found, bad + [10] + rest, end);
    FirstIsRead(c, bad, rest, end);
    hide Rest, Transcript;
    assert Present(found) + [] == Present(found);
  }

  // ---------------------------------------------------------------- the round trip

  /** The encoder writes the event as one line that survives trimming and decodes to it. */
  predicate Encodes(c: Codec, encode: Stream.Event -> Bytes, ev: Stream.Event) {
    var text := encode(ev);
    && text != [] && text[0] == 123 && 10 !in text
    && c.trim(text + [10]) == text && c.decode(text) == Typed(ev)
  }

  function Encoded(encode: Stream.Event -> Bytes, events: seq<Stream.Event>): seq<Bytes> {
    seq(|events|, i requires 0 <= i < |events| => encode(events[i]))
  }

  function AllFound(events: seq<Stream.Event>): seq<Option<Stream.Event>> {
    seq(|events|, i requires 0 <= i < |events| => Some(events[i]))
  }

  lemma {:induction false} AllPresent(events: seq<Stream.Event>)
    ensures Present(AllFound(events)) == events
  {
    if events != [] {
      AllPresent(events[1..]);
      assert AllFound(events)[1..] == AllFound(events[1..]);
    }
  }

  /** Reading back what an encoder wrote gives exactly the events, then the error the input ends with. */
  lemma EncodedIsRead(c: Codec, encode: Stream.Event -> Bytes, events: seq<Stream.Event>, end: IoEnd)
    requires c.trim([]) == [] && forall ev :: ev in events ==> Encodes(c, encode, ev)
    ensures Rest(c, Terminated(Encoded(encode, events)), end) == (events, Ended(end))
  {
    var lines, found := Encoded(encode, events), AllFound(events);
    forall i | 0 <= i < |lines|
      ensures Entry(c, lines[i], found[i])
    {
      assert Encodes(c, encode, events[i]);
    }
    AllPresent(events);
    TranscriptIsRead(c, lines, found, [], end);
    hide Rest, Terminated, Present, Encodes, Entry;
    assert Terminated(lines) + [] == Terminated(lines);
  }

  /** Lines that carry nothing can be put anywhere: only the events matter. */
  lemma FillersAreInvisible(c: Codec, lines: seq<Bytes>, found: seq<Option<Stream.Event>>,
                            others: seq<Bytes>, found': seq<Option<Stream.Event>>, rest: Bytes, end: IoEnd)
    requires Transcript(c, lines, found) && Transcript(c, others, found') && Present(found) == Present(found')
    ensures Rest(c, Terminated(lines) + rest, end) == Rest(c, Terminated(others) + rest, end)
  {
    LinesAreRead(c, lines, found, rest, end);
    LinesAreRead(c, others, found', rest, end);
    hide Rest, Transcript, Present, Terminated;
  }
}
