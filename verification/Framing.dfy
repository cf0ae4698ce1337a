/** Newline framing of the public connection, read through buffers of any size. */
module Framing {
  import opened Json

  type Byte = bv8

  const NEWLINE: Byte := 10
  const CARRIAGE_RETURN: Byte := 13

  function Flatten(chunks: seq<seq<Byte>>): seq<Byte> {
    if chunks == [] then [] else chunks[0] + Flatten(chunks[1..])
  }

  lemma FlattenAppend(chunks: seq<seq<Byte>>, last: seq<Byte>)
    ensures Flatten(chunks + [last]) == Flatten(chunks) + last
  {
    if chunks == [] {
      assert chunks + [last] == [last] && [last][1..] == [];
    } else {
      assert (chunks + [last])[1..] == chunks[1..] + [last];
    }
  }

  /** A buffered reader: what remains to be read, in the non-empty pieces it will arrive in. */
  class Reader {
    var chunks: seq<seq<Byte>>

    ghost predicate Valid()
      reads this
    {
      forall i :: 0 <= i < |chunks| ==> chunks[i] != []
    }

    ghost function Stream(): seq<Byte>
      reads this
    {
      Flatten(chunks)
    }

    constructor (chunks: seq<seq<Byte>>)
      requires forall i :: 0 <= i < |chunks| ==> chunks[i] != []
      ensures Valid() && Stream() == Flatten(chunks)
    {
      this.chunks := chunks;
    }

    /** The bytes at hand; empty only at the end of the stream. */
    method FillBuf() returns (buffer: seq<Byte>)
      requires Valid()
      ensures buffer <= Stream() && (buffer == [] <==> Stream() == [])
      ensures chunks != [] ==> buffer == chunks[0]
      ensures buffer != [] ==> chunks != []
    {
      if chunks == [] { return []; }
      return chunks[0];
    }

    method Consume(n: nat)
      requires Valid() && chunks != [] && n <= |chunks[0]|
      modifies this
      ensures Valid() && Stream() == old(Stream())[n..]
    {
      var rest := chunks[0][n..];
      if rest == [] {
        chunks := chunks[1..];
      } else {
        chunks := [rest] + chunks[1..];
        assert chunks[1..] == old(chunks)[1..];
      }
    }
  }

  datatype BoundedMessage = Complete(bytes: seq<Byte>) | TooLarge

  // What one read means, on the whole stream at once.

  /** Position of the first newline, or the length when there is none. */
  function BodyLength(s: seq<Byte>): (n: nat)
    ensures n <= |s| && NEWLINE !in s[..n]
    ensures n < |s| ==> s[n] == NEWLINE
  {
    if s == [] || s[0] == NEWLINE then 0
    else
      var n := 1 + BodyLength(s[1..]);
      assert s[..n] == [s[0]] + s[1..][..n - 1];
      n
  }

  lemma NoNewline(s: seq<Byte>, n: nat)
    requires n <= |s| && NEWLINE !in s[..n]
    ensures forall i :: 0 <= i < n ==> s[i] != NEWLINE
  {
    forall i | 0 <= i < n ensures s[i] != NEWLINE { assert s[..n][i] == s[i]; }
  }

  lemma BodyLengthAtLeast(s: seq<Byte>, n: nat)
    requires n <= |s| && NEWLINE !in s[..n]
    ensures BodyLength(s) >= n
    ensures (n < |s| ==> s[n] == NEWLINE) ==> BodyLength(s) == n
  {
    NoNewline(s, n);
    NoNewline(s, BodyLength(s));
  }

  function WithoutReturn(body: seq<Byte>): seq<Byte> {
    if body != [] && body[|body| - 1] == CARRIAGE_RETURN then body[..|body| - 1] else body
  }

  /** Bytes a complete read takes: the body and its newline, if it has one. */
  function Taken(s: seq<Byte>): (n: nat)
    ensures n <= |s| && (s != [] ==> n > 0)
  {
    if BodyLength(s) < |s| then BodyLength(s) + 1 else |s|
  }

  function OneShot(s: seq<Byte>, limit: nat): Option<BoundedMessage> {
    if s == [] then None
    else if BodyLength(s) > limit then Some(TooLarge)
    else Some(Complete(WithoutReturn(s[..BodyLength(s)])))
  }

  /**
   * One read, through whatever buffers the bytes arrive in, is the one-shot read of the stream.
   * The message being assembled never exceeds the limit.
   */
  method ReadBoundedMessage(reader: Reader, limit: nat) returns (r: Option<BoundedMessage>, ghost peak: nat)
    requires reader.Valid()
    modifies reader
    ensures reader.Valid()
    ensures r == OneShot(old(reader.Stream()), limit)
    ensures r.None? || r.value.Complete? ==> reader.Stream() == old(reader.Stream())[Taken(old(reader.Stream()))..]
    ensures r == Some(TooLarge) ==> |reader.Stream()| < |old(reader.Stream())| - limit
                                    && reader.Stream() ==
                                         old(reader.Stream())[|old(reader.Stream())| - |reader.Stream()|..]
    ensures peak <= limit
  {
    hide BodyLength;
    hide Flatten;
    var message: seq<Byte> := [];
    var length := 0;
    var tooLarge := false;
    ghost var s := reader.Stream();
    peak := 0;
    while true
      invariant reader.Valid() && !tooLarge && length == |message| <= limit && peak <= limit
      invariant length <= |s| && message == s[..length] && reader.Stream() == s[length..] && NEWLINE !in message
      decreases |s| - length
    {
      var buffer := reader.FillBuf();
      if buffer == [] {
        BodyLengthAtLeast(s, length);
        if length == 0 { return None, peak; }
        if tooLarge { return Some(TooLarge), peak; }
        message := DropReturn(message);
        return Some(Complete(message)), peak;
      }
      var body := Position(buffer);
      Advance(s, length, buffer, body);
      if body > (if limit < length then 0 else limit - length) { tooLarge := true; }
      if !tooLarge {
        message := message + buffer[..body];
        peak := if |message| > peak then |message| else peak;
      }
      length := length + body;
      if body < |buffer| {
        reader.Consume(body + 1);
        if tooLarge { return Some(TooLarge), peak; }
        message := DropReturn(message);
        return Some(Complete(message)), peak;
      }
      reader.Consume(body);
      if tooLarge { return Some(TooLarge), peak; }
    }
  }

  /** Looking through one more buffer of the stream, as far as its newline. */
  lemma Advance(s: seq<Byte>, length: nat, buffer: seq<Byte>, body: nat)
    requires length <= |s| && NEWLINE !in s[..length]
    requires buffer <= s[length..] && body <= |buffer|
    requires NEWLINE !in buffer[..body] && (body < |buffer| ==> buffer[body] == NEWLINE)
    ensures length + body <= |s| && BodyLength(s) >= length + body
    ensures s[..length + body] == s[..length] + buffer[..body] && NEWLINE !in s[..length + body]
    ensures s[length..][body..] == s[length + body..]
    ensures body < |buffer| ==>
              && BodyLength(s) == length + body && Taken(s) == length + body + 1
              && s[length..][body + 1..] == s[length + body + 1..]
  {
    hide BodyLength;
    Extend(s, length, buffer, body);
    Slices(s, length, body);
    if body < |buffer| { Slices(s, length, body + 1); }
    BodyLengthAtLeast(s, length + body);
  }

  lemma Slices(s: seq<Byte>, i: nat, n: nat)
    requires i + n <= |s|
    ensures s[i..][n..] == s[i + n..]
  {}

  lemma Extend(s: seq<Byte>, length: nat, buffer: seq<Byte>, body: nat)
    requires length <= |s| && buffer <= s[length..] && body <= |buffer|
    ensures length + |buffer| <= |s|
    ensures s[..length + body] == s[..length] + buffer[..body]
    ensures body < |buffer| ==> s[length + body] == buffer[body]
  {
    assert s[length..][..body] == buffer[..body];
    if body < |buffer| { assert s[length..][body] == buffer[body]; }
  }

  method Position(buffer: seq<Byte>) returns (n: nat)
    ensures n <= |buffer| && NEWLINE !in buffer[..n] && (n < |buffer| ==> buffer[n] == NEWLINE)
  {
    n := 0;
    while n < |buffer| && buffer[n] != NEWLINE
      invariant n <= |buffer| && NEWLINE !in buffer[..n]
    {
      assert buffer[..n + 1] == buffer[..n] + [buffer[n]];
      n := n + 1;
    }
  }

  method DropReturn(message: seq<Byte>) returns (r: seq<Byte>)
    ensures r == WithoutReturn(message)
  {
    r := message;
    if |r| > 0 && r[|r| - 1] == CARRIAGE_RETURN { r := r[..|r| - 1]; }
  }

  // A whole connection.

  /** How the reading loop stops: the stream ends, or a message is too large. */
  datatype End = EndOfStream | Oversized

  datatype Connection = Connection(messages: seq<seq<Byte>>, end: End)

  function Frames(s: seq<Byte>, limit: nat): Connection
    decreases |s|
  {
    match OneShot(s, limit)
    case None => Connection([], EndOfStream)
    case Some(TooLarge) => Connection([], Oversized)
    case Some(Complete(bytes)) =>
      var rest := Frames(s[Taken(s)..], limit);
      Connection([bytes] + rest.messages, rest.end)
  }

  /** The raw bytes behind a message: at most one newline, and that last. */
  ghost predicate RawOf(raw: seq<Byte>, message: seq<Byte>) {
    raw != [] && exists body ::
      NEWLINE !in body && message == WithoutReturn(body) && (raw == body || raw == body + [NEWLINE])
  }

  ghost predicate Cuts(pieces: seq<seq<Byte>>, messages: seq<seq<Byte>>) {
    |pieces| == |messages| && forall i :: 0 <= i < |pieces| ==> RawOf(pieces[i], messages[i])
  }

  /**
   * Reads until the stream ends or a message is too large. The messages do not depend on how the
   * bytes were split into buffers, and the pieces they came from partition what was read.
   */
  method ReadConnection(reader: Reader, limit: nat) returns (c: Connection, ghost pieces: seq<seq<Byte>>)
    requires reader.Valid()
    modifies reader
    ensures c == Frames(old(reader.Stream()), limit)
    ensures Cuts(pieces, c.messages) && Flatten(pieces) <= old(reader.Stream())
    ensures c.end.EndOfStream? ==> Flatten(pieces) == old(reader.Stream())
    ensures forall i :: 0 <= i < |c.messages| ==> |c.messages[i]| <= limit
  {
    hide Progress;
    hide OneShot;
    hide Taken;
    var messages: seq<seq<Byte>> := [];
    ghost var s := reader.Stream();
    pieces := [];
    ProgressStarts(s, limit);
    while true
      invariant reader.Valid() && Progress(s, limit, pieces, messages, reader.Stream())
      decreases |reader.Stream()|
    {
      ghost var now := reader.Stream();
      ProgressStep(s, limit, pieces, messages, now);
      var message, peak := ReadBoundedMessage(reader, limit);
      match message {
        case None => return Connection(messages, EndOfStream), pieces;
        case Some(TooLarge) => return Connection(messages, Oversized), pieces;
        case Some(Complete(bytes)) =>
          pieces := pieces + [now[..Taken(now)]];
          messages := messages + [bytes];
      }
    }
  }

  /** The connection so far: what is read is in the pieces, and the rest decides the remaining messages. */
  ghost predicate Progress(s: seq<Byte>, limit: nat, pieces: seq<seq<Byte>>, messages: seq<seq<Byte>>,
                           rest: seq<Byte>)
  {
    && Cuts(pieces, messages) && s == Flatten(pieces) + rest
    && Frames(s, limit) == Connection(messages + Frames(rest, limit).messages, Frames(rest, limit).end)
    && forall i :: 0 <= i < |messages| ==> |messages[i]| <= limit
  }

  lemma ProgressStarts(s: seq<Byte>, limit: nat)
    ensures Progress(s, limit, [], [], s)
  {
    hide Frames;
    FlattenNothing();
    assert Flatten([]) + s == s;
    assert [] + Frames(s, limit).messages == Frames(s, limit).messages;
  }

  lemma ProgressStep(s: seq<Byte>, limit: nat, pieces: seq<seq<Byte>>, messages: seq<seq<Byte>>, rest: seq<Byte>)
    requires Progress(s, limit, pieces, messages, rest)
    ensures Cuts(pieces, messages) && Flatten(pieces) <= s
    ensures forall i :: 0 <= i < |messages| ==> |messages[i]| <= limit
    ensures OneShot(rest, limit) == None ==>
              Frames(s, limit) == Connection(messages, EndOfStream) && Flatten(pieces) == s
    ensures OneShot(rest, limit) == Some(TooLarge) ==> Frames(s, limit) == Connection(messages, Oversized)
    ensures OneShot(rest, limit).Some? && OneShot(rest, limit).value.Complete? ==>
              && 0 < Taken(rest) <= |rest|
              && Progress(s, limit, pieces + [rest[..Taken(rest)]], messages + [OneShot(rest, limit).value.bytes],
                          rest[Taken(rest)..])
  {
    hide Frames;
    hide Flatten;
    hide RawOf;
    hide BodyLength;
    hide WithoutReturn;
    FramesStep(rest, limit);
    if OneShot(rest, limit).None? {
      assert rest == [];
      assert Flatten(pieces) + [] == Flatten(pieces) && messages + [] == messages;
    } else if OneShot(rest, limit).value.TooLarge? {
      assert messages + [] == messages;
    } else {
      var n := Taken(rest);
      var bytes := OneShot(rest, limit).value.bytes;
      RawPiece(rest);
      FlattenAppend(pieces, rest[..n]);
      Halves(Flatten(pieces), rest, n);
      MessagesAppend(messages, bytes, Frames(rest[n..], limit).messages);
    }
  }

  lemma Halves(front: seq<Byte>, rest: seq<Byte>, n: nat)
    requires n <= |rest|
    ensures front + rest == front + rest[..n] + rest[n..]
  {
    assert rest == rest[..n] + rest[n..];
  }

  lemma MessagesAppend(messages: seq<seq<Byte>>, bytes: seq<Byte>, more: seq<seq<Byte>>)
    ensures messages + ([bytes] + more) == messages + [bytes] + more
  {}

  lemma FlattenNothing()
    ensures Flatten([]) == []
  {}

  lemma FramesStep(s: seq<Byte>, limit: nat)
    ensures Frames(s, limit) == match OneShot(s, limit)
                                case None => Connection([], EndOfStream)
                                case Some(TooLarge) => Connection([], Oversized)
                                case Some(Complete(bytes)) =>
                                  Connection([bytes] + Frames(s[Taken(s)..], limit).messages,
                                             Frames(s[Taken(s)..], limit).end)
    ensures Taken(s) <= |s| && (s != [] ==> Taken(s) > 0)
    ensures OneShot(s, limit).Some? && OneShot(s, limit).value.Complete? ==> |OneShot(s, limit).value.bytes| <= limit
  {}

  lemma RawPiece(s: seq<Byte>)
    requires s != []
    ensures RawOf(s[..Taken(s)], WithoutReturn(s[..BodyLength(s)]))
  {
    var body := s[..BodyLength(s)];
    assert s[..Taken(s)] == if BodyLength(s) < |s| then body + [NEWLINE] else body;
  }

  // Writing lines and reading them back.

  function Joined(lines: seq<seq<Byte>>): seq<Byte> {
    if lines == [] then [] else lines[0] + [NEWLINE] + Joined(lines[1..])
  }

  /** A newline-terminated line is read back as itself exactly when it fits and does not end in a return. */
  lemma LineSurvives(line: seq<Byte>, rest: seq<Byte>, limit: nat)
    requires NEWLINE !in line
    ensures OneShot(line + [NEWLINE] + rest, limit) == Some(Complete(line))
       <==> |line| <= limit && (line != [] ==> line[|line| - 1] != CARRIAGE_RETURN)
    ensures Taken(line + [NEWLINE] + rest) == |line| + 1
    ensures OneShot(line + [NEWLINE] + rest, limit) == Some(TooLarge) <==> |line| > limit
  {
    var s := line + [NEWLINE] + rest;
    assert s[..|line|] == line;
    BodyLengthAtLeast(s, |line|);
  }

  /** The two line endings read the same, except at the limit, which counts the return. */
  lemma ReturnIsDropped(line: seq<Byte>, rest: seq<Byte>, limit: nat)
    requires NEWLINE !in line
    ensures OneShot(line + [CARRIAGE_RETURN, NEWLINE] + rest, limit)
         == if |line| < limit then Some(Complete(line)) else Some(TooLarge)
  {
    var body := line + [CARRIAGE_RETURN];
    var s := line + [CARRIAGE_RETURN, NEWLINE] + rest;
    assert s == body + [NEWLINE] + rest;
    assert s[..|body|] == body;
    BodyLengthAtLeast(s, |body|);
    assert WithoutReturn(body) == line;
  }

  predicate Plain(line: seq<Byte>, limit: nat) {
    |line| <= limit && (line != [] ==> line[|line| - 1] != CARRIAGE_RETURN)
  }

  lemma FramesOfLine(line: seq<Byte>, rest: seq<Byte>, limit: nat)
    requires NEWLINE !in line
    ensures Plain(line, limit) ==>
              Frames(line + [NEWLINE] + rest, limit) ==
                Connection([line] + Frames(rest, limit).messages, Frames(rest, limit).end)
    ensures !Plain(line, limit) ==>
              Frames(line + [NEWLINE] + rest, limit).messages == []
              || Frames(line + [NEWLINE] + rest, limit).messages[0] != line
  {
    hide Taken;
    hide OneShot;
    var s := line + [NEWLINE] + rest;
    LineSurvives(line, rest, limit);
    FramesStep(s, limit);
    assert s[|line| + 1..] == rest;
  }

  /** Lines written one after the other are read back exactly when each of them fits and is plain. */
  lemma {:induction false} JoinedLinesSurvive(lines: seq<seq<Byte>>, limit: nat)
    requires forall i :: 0 <= i < |lines| ==> NEWLINE !in lines[i]
    ensures Frames(Joined(lines), limit) == Connection(lines, EndOfStream)
       <==> forall i :: 0 <= i < |lines| ==> Plain(lines[i], limit)
  {
    hide Plain;
    if lines != [] {
      hide Frames;
      JoinedLinesSurvive(lines[1..], limit);
      FramesOfLine(lines[0], Joined(lines[1..]), limit);
      assert lines == [lines[0]] + lines[1..];
      assert forall i :: 0 <= i < |lines| - 1 ==> lines[1..][i] == lines[i + 1];
      assert (forall i :: 0 <= i < |lines| ==> Plain(lines[i], limit)) <==>
             Plain(lines[0], limit) && forall i :: 0 <= i < |lines[1..]| ==> Plain(lines[1..][i], limit) by {
        AllPlain(lines, limit);
      }
    }
  }

  lemma AllPlain(lines: seq<seq<Byte>>, limit: nat)
    requires lines != []
    ensures (forall i :: 0 <= i < |lines| ==> Plain(lines[i], limit)) <==>
            Plain(lines[0], limit) && forall i :: 0 <= i < |lines[1..]| ==> Plain(lines[1..][i], limit)
  {
    hide Plain;
    if Plain(lines[0], limit) && forall i :: 0 <= i < |lines[1..]| ==> Plain(lines[1..][i], limit) {
      forall i | 0 <= i < |lines| ensures Plain(lines[i], limit) {
        if i > 0 { assert lines[1..][i - 1] == lines[i]; }
      }
    }
  }
}
