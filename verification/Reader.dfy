/**
 * The incremental NDJSON reader (Reader.Next in proxy/internal/stream/stream.go).
 * JSON decoding and byte trimming are parameters; everything proved holds for every
 * choice of them.  The buffered reader is modelled by what ReadSlice and ReadBytes
 * promise, with an arbitrary buffer capacity.
 */
module Reader {
  import opened Wrappers
  import Stream

  type Byte = b: int | 0 <= b < 256

  type Bytes = seq<Byte>

  const NEWLINE: Byte := 10
  const COLON: Byte := 58
  const DONE: Bytes := [91, 68, 79, 78, 69, 93]  // [DONE]

  /** What decoding one trimmed line yields. */
  datatype Decoded =
    | Typed(event: Stream.Event)
    | Untyped
    | Undecodable(validJson: bool, critical: bool)  // critical: malformedCriticalEvent

  datatype Codec = Codec(trim: Bytes -> Bytes, decode: Bytes -> Decoded)

  /** How the underlying body ends. */
  datatype IoEnd = Eof | Broken(cause: int)

  /** The reader's terminal errors. */
  datatype Error = Ended(end: IoEnd) | Malformed

  datatype Item = Event(event: Stream.Event) | Failure(error: Error)

  // ---------------------------------------------------------------- lines

  /** The input cut after each newline; the last piece has none and may be empty. */
  function SplitLines(data: Bytes): (lines: seq<Bytes>)
    ensures lines != []
  {
    var j := LineEnd(data);
    if j == |data| then [data] else [data[..j + 1]] + SplitLines(data[j + 1..])
  }

  /** The position of the first newline, or the length when there is none. */
  function LineEnd(data: Bytes): (j: nat)
    ensures j <= |data| && NEWLINE !in data[..j] && (j < |data| ==> data[j] == NEWLINE)
  {
    if data == [] then 0
    else if data[0] == NEWLINE then 0
    else
      var j := 1 + LineEnd(data[1..]);
      assert data[..j] == [data[0]] + data[1..][..j - 1];
      j
  }

  /** Blank lines, [DONE] sentinels and SSE comments carry nothing. */
  predicate Ignored(line: Bytes) {
    line == [] || line == DONE || line[0] == COLON
  }

  /** The event a line carries, if any. */
  function EventOn(c: Codec, line: Bytes): Option<Stream.Event> {
    var trimmed := c.trim(line);
    if Ignored(trimmed) then None
    else
      match c.decode(trimmed)
      case Typed(ev) => Some(ev)
      case _ => None
  }

  /**
   * The line is an undecodable tool or terminal event. An interrupted read explains
   * incomplete JSON on the last line, so that is not blamed on the peer.
   */
  predicate Fatal(c: Codec, line: Bytes, ended: Option<IoEnd>) {
    var trimmed := c.trim(line);
    && !Ignored(trimmed)
    && c.decode(trimmed).Undecodable? && c.decode(trimmed).critical
    && !(ended.Some? && ended.value.Broken? && !c.decode(trimmed).validJson)
  }

  /** These events, after the one found on a line if there was one. */
  function Prepend(found: Option<Stream.Event>, events: seq<Stream.Event>): seq<Stream.Event> {
    if found.Some? then [found.value] + events else events
  }

  /** Everything a reader with this much unread input will still return. */
  function Rest(c: Codec, data: Bytes, end: IoEnd): (seq<Stream.Event>, Error)
    decreases |data|
  {
    var j := LineEnd(data);
    var last := j == |data|;
    var line := if last then data else data[..j + 1];
    if Fatal(c, line, if last then Some(end) else None) then ([], Malformed)
    else
      var (more, error) := if last then ([], Ended(end)) else Rest(c, data[j + 1..], end);
      (Prepend(EventOn(c, line), more), error)
  }

  // ---------------------------------------------------------------- the reader

  datatype SliceEnd = AtNewline | BufferFull | AtEnd

  /** The buffered reader: the unread input, and the capacity of its buffer. */
  class BufferedReader {
    var unread: Bytes
    const end: IoEnd
    const capacity: nat

    constructor (data: Bytes, end: IoEnd, capacity: nat)
      requires capacity > 0
      ensures unread == data && this.end == end && this.capacity == capacity
    {
      unread, this.end, this.capacity := data, end, capacity;
    }

    /** Up to the first newline, unless the buffer fills or the input ends before it. */
    method ReadSlice() returns (slice: Bytes, how: SliceEnd)
      modifies this`unread
      ensures old(unread) == slice + unread
      ensures match how
              case AtNewline => LineEnd(old(unread)) < |old(unread)| && |slice| == LineEnd(old(unread)) + 1
              case BufferFull => |slice| == capacity <= LineEnd(old(unread))
              case AtEnd => slice == old(unread) && LineEnd(slice) == |slice|
    {
      var j := LineEnd(unread);
      if j < |unread| && j < capacity {
        slice, how := unread[..j + 1], AtNewline;
      } else if |unread| >= capacity {
        slice, how := unread[..capacity], BufferFull;
      } else {
        slice, how := unread, AtEnd;
      }
      unread := unread[|slice|..];
    }

    /** Up to the first newline or the end of the input, however far that is. */
    method ReadBytes() returns (rest: Bytes, atEnd: bool)
      modifies this`unread
      ensures old(unread) == rest + unread
      ensures if atEnd then rest == old(unread) && LineEnd(rest) == |rest|
              else LineEnd(old(unread)) < |old(unread)| && |rest| == LineEnd(old(unread)) + 1
    {
      var j := LineEnd(unread);
      atEnd := j == |unread|;
      rest := if atEnd then unread else unread[..j + 1];
      unread := unread[|rest|..];
    }
  }

  /** A newline-free prefix does not change where the line ends. */
  lemma {:induction false} LineEndAfter(prefix: Bytes, rest: Bytes)
    requires |prefix| <= LineEnd(prefix + rest)
    ensures LineEnd(prefix + rest) == |prefix| + LineEnd(rest)
  {
    if prefix == [] {
      assert prefix + rest == rest;
    } else {
      assert (prefix + rest)[1..] == prefix[1..] + rest;
      LineEndAfter(prefix[1..], rest);
    }
  }

  /** What one line adds to what follows it. */
  lemma RestAfterLine(c: Codec, data: Bytes, end: IoEnd)
    ensures var j := LineEnd(data);
            var line := if j == |data| then data else data[..j + 1];
            var (more, error) := if j == |data| then ([], Ended(end)) else Rest(c, data[j + 1..], end);
            Rest(c, data, end) ==
              if Fatal(c, line, if j == |data| then Some(end) else None) then ([], Malformed)
              else (Prepend(EventOn(c, line), more), error)
  {
    hide Fatal, EventOn, Prepend, LineEnd;
  }

  class EventReader {
    const codec: Codec
    const br: BufferedReader
    var err: Option<Error>

    /** The events and the error the reader has still to return. */
    ghost function Remaining(): (seq<Stream.Event>, Error)
      reads this, br
    {
      if err.Some? then ([], err.value) else Rest(codec, br.unread, br.end)
    }

    constructor (codec: Codec, br: BufferedReader)
      ensures this.codec == codec && this.br == br && Remaining() == Rest(codec, br.unread, br.end)
    {
      this.codec, this.br, err := codec, br, None;
    }

    /** The next whole line, whether or not it fits the buffer. */
    method ReadLine() returns (line: Bytes, atEnd: bool)
      modifies br`unread
      ensures var data := old(br.unread); var j := LineEnd(data);
              && atEnd == (j == |data|)
              && line == (if atEnd then data else data[..j + 1])
              && br.unread == (if atEnd then [] else data[j + 1..])
    {
      ghost var data := br.unread;
      var how;
      line, how := br.ReadSlice();
      atEnd := how.AtEnd?;
      if how.BufferFull? {
        var prefix := line;
        LineEndAfter(prefix, br.unread);
        var rest;
        rest, atEnd := br.ReadBytes();
        line := prefix + rest;
        assert data == line + br.unread;
      }
    }

    /** One line that was read: an event, the error it ends in, or nothing. */
    method HandleLine(raw: Bytes, atEnd: bool) returns (found: Option<Item>)
      modifies this`err
      ensures if Fatal(codec, raw, if atEnd then Some(br.end) else None) then
                err == Some(Malformed) && found == Some(Failure(Malformed))
              else
                && err == (if atEnd then Some(Ended(br.end)) else None)
                && match EventOn(codec, raw)
                   case Some(ev) => found == Some(Event(ev))
                   case None => found.None? || (atEnd && found == Some(Failure(Ended(br.end))))
    {
      err := if atEnd then Some(Ended(br.end)) else None;
      var line := codec.trim(raw);
      if Ignored(line) {
        return None;
      }
      match codec.decode(line) {
        case Undecodable(validJson, critical) =>
          if atEnd && br.end.Broken? && !validJson {
            return Some(Failure(Ended(br.end)));
          }
          if critical {
            err := Some(Malformed);
            return Some(Failure(Malformed));
          }
        case Untyped =>
        case Typed(ev) =>
          return Some(Event(ev));
      }
      return None;
    }

    method Next() returns (item: Item)
      modifies this`err, br`unread
      ensures var (evs, error) := old(Remaining());
              if evs == [] then
                item == Failure(error) && err == Some(error) && Remaining() == ([], error)
              else
                && item == Event(evs[0]) && Remaining() == (evs[1..], error)
                && (err.None? ==> |br.unread| < |old(br.unread)|)
      ensures old(err).Some? ==> err == old(err)
    {
      ghost var (evs, error) := Remaining();
      while true
        invariant Remaining() == (evs, error)
        invariant |br.unread| <= |old(br.unread)| && (old(err).Some? ==> err == old(err))
        decreases if err.None? then 1 else 0, |br.unread|
      {
        if err.Some? {
          return Failure(err.value);
        }
        RestAfterLine(codec, br.unread, br.end);
        var line, atEnd := ReadLine();
        hide Rest, LineEnd, Fatal, EventOn;
        var found := HandleLine(line, atEnd);
        if found.Some? {
          assert found.value.Event? ==> evs == [found.value.event] + Remaining().0;
          return found.value;
        }
      }
    }
  }

  // ---------------------------------------------------------------- what is returned

  /** The events on these lines, in order. */
  function EventsOn(c: Codec, lines: seq<Bytes>): seq<Stream.Event> {
    if lines == [] then []
    else Prepend(EventOn(c, lines[0]), EventsOn(c, lines[1..]))
  }

  /** Line i of the input is one the reader stops at; only the last line sees the I/O error. */
  predicate FatalAt(c: Codec, lines: seq<Bytes>, end: IoEnd, i: nat)
    requires i < |lines|
  {
    Fatal(c, lines[i], if i == |lines| - 1 then Some(end) else None)
  }

  predicate CompleteLine(line: Bytes) {
    line != [] && line[|line| - 1] == NEWLINE && NEWLINE !in line[..|line| - 1]
  }

  /** Pieces that make up the input; all but the last are newline-terminated lines. */
  ghost predicate LinesOf(lines: seq<Bytes>, data: Bytes) {
    && lines != [] && Joined(lines) == data
    && (forall i :: 0 <= i < |lines| - 1 ==> CompleteLine(lines[i]))
    && NEWLINE !in lines[|lines| - 1]
  }

  lemma FirstLine(first: Bytes, lines: seq<Bytes>, data: Bytes)
    requires CompleteLine(first) && LinesOf(lines, data)
    ensures LinesOf([first] + lines, first + data)
  {
    assert ([first] + lines)[1..] == lines;
  }

  lemma FirstPiece(data: Bytes)
    requires LineEnd(data) < |data|
    ensures var first, rest := data[..LineEnd(data) + 1], data[LineEnd(data) + 1..];
            CompleteLine(first) && first + rest == data && SplitLines(data) == [first] + SplitLines(rest)
  {
    FirstLineIsComplete(data);
    hide CompleteLine, LineEnd;
  }

  lemma LastPiece(data: Bytes)
    requires LineEnd(data) == |data|
    ensures SplitLines(data) == [data] && LinesOf([data], data)
  {
    assert data[..|data|] == data && Joined([data]) == data + Joined([]);
    hide LineEnd;
  }

  lemma {:induction false} SplitLinesMeaning(data: Bytes)
    ensures LinesOf(SplitLines(data), data)
    decreases |data|
  {
    hide *;
    if LineEnd(data) < |data| {
      FirstPiece(data);
      var first, rest := data[..LineEnd(data) + 1], data[LineEnd(data) + 1..];
      SplitLinesMeaning(rest);
      FirstLine(first, SplitLines(rest), rest);
    } else {
      LastPiece(data);
    }
  }

  lemma FirstLineIsComplete(data: Bytes)
    requires LineEnd(data) < |data|
    ensures CompleteLine(data[..LineEnd(data) + 1])
  {
    var j := LineEnd(data);
    assert data[..j + 1][..j] == data[..j];
  }

  function Joined(lines: seq<Bytes>): Bytes {
    if lines == [] then [] else lines[0] + Joined(lines[1..])
  }

  /** n is the first fatal line, or the number of lines if there is none. */
  ghost predicate FirstFatal(c: Codec, lines: seq<Bytes>, end: IoEnd, n: nat) {
    && n <= |lines|
    && (forall i :: 0 <= i < n ==> !FatalAt(c, lines, end, i))
    && (n < |lines| ==> FatalAt(c, lines, end, n))
  }

  lemma FatalLater(c: Codec, first: Bytes, lines: seq<Bytes>, end: IoEnd, n: nat)
    requires lines != [] && FirstFatal(c, lines, end, n) && !FatalAt(c, [first] + lines, end, 0)
    ensures FirstFatal(c, [first] + lines, end, n + 1)
  {
    hide Fatal;
    var all := [first] + lines;
    forall i: nat | i < |lines|
      ensures FatalAt(c, all, end, i + 1) == FatalAt(c, lines, end, i)
    {
    }
    forall i | 0 <= i < n + 1
      ensures !FatalAt(c, all, end, i)
    {
      assert i > 0 ==> !FatalAt(c, lines, end, i - 1);
    }
  }

  lemma EventsLater(c: Codec, first: Bytes, lines: seq<Bytes>, n: nat)
    requires n <= |lines|
    ensures EventsOn(c, ([first] + lines)[..n + 1]) == Prepend(EventOn(c, first), EventsOn(c, lines[..n]))
  {
    assert ([first] + lines)[..n + 1][1..] == lines[..n];
    hide EventOn;
  }

  /**
   * A reader returns exactly the typed events of the lines before the first fatal one,
   * then the malformed-event error; without a fatal line, all of them and then the
   * error the input ends with.
   */
  lemma {:induction false} ReaderReturns(c: Codec, data: Bytes, end: IoEnd) returns (n: nat)
    ensures var lines := SplitLines(data);
            && FirstFatal(c, lines, end, n)
            && Rest(c, data, end) == (EventsOn(c, lines[..n]), if n < |lines| then Malformed else Ended(end))
    decreases |data|
  {
    var j := LineEnd(data);
    var lines := SplitLines(data);
    hide Fatal, EventOn, LineEnd;
    if FatalAt(c, lines, end, 0) {
      n := 0;
    } else if j == |data| {
      n := 1;
      assert lines[..1] == lines && lines[1..] == [];
    } else {
      var tail := data[j + 1..];
      var m := ReaderReturns(c, tail, end);
      n := m + 1;
      FatalLater(c, data[..j + 1], SplitLines(tail), end, m);
      EventsLater(c, data[..j + 1], SplitLines(tail), m);
      hide FirstFatal, EventsOn;
    }
  }
}
