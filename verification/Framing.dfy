/**
 * Framing on a byte stream: whatever way the reads split the bytes, the messages are those
 * of the whole stream. The codec is any prefix-stable decoder; the newline codec and the
 * length-prefix codec are two.
 */
module Framing {
  import opened Basics
  import opened Bytes

  /** What a codec makes of a buffer: a message and how many bytes it took, a wait for more, or an error. */
  datatype Decoded<+M> = Frame(msg: M, consumed: nat) | More | Bad

  type Decoder<M> = seq<Byte> -> Decoded<M>

  /** A frame takes bytes that are there, and an answer does not change when bytes follow. */
  ghost predicate Stable<M(!new)>(decode: Decoder<M>) {
    && (forall b: seq<Byte> :: decode(b).Frame? ==> 0 < decode(b).consumed && decode(b).consumed <= |b|)
    && (forall b: seq<Byte>, more: seq<Byte> :: !decode(b).More? ==> decode(b + more) == decode(b))
  }

  /** The messages of a whole stream. */
  ghost function Messages<M(!new)>(decode: Decoder<M>, stream: seq<Byte>): seq<M>
    requires Stable(decode)
    decreases |stream|
  {
    if decode(stream).Frame? then [decode(stream).msg] + Messages(decode, stream[decode(stream).consumed..]) else []
  }

  /** The messages end in an error rather than with the stream. */
  ghost predicate EndsBadly<M(!new)>(decode: Decoder<M>, stream: seq<Byte>)
    requires Stable(decode)
    decreases |stream|
  {
    if decode(stream).Frame? then EndsBadly(decode, stream[decode(stream).consumed..]) else decode(stream).Bad?
  }

  datatype Outcome<+M> = Got(msg: M) | Ended | Failed

  predicate AllRead(input: seq<seq<Byte>>) {
    forall i :: 0 <= i < |input| ==> input[i] != []
  }

  /** A reader that returns the pieces of `input` one by one and then end-of-file, and the bytes not yet decoded. */
  class Frames<M(!new)> {
    const decode: Decoder<M>
    var buf: seq<Byte>
    var input: seq<seq<Byte>>

    ghost predicate Valid()
      reads this
    {
      Stable(decode) && AllRead(input)
    }

    /** All that is still to come. */
    ghost function Stream(): seq<Byte>
      reads this
    {
      buf + Flatten(input)
    }

    constructor (decode: Decoder<M>, input: seq<seq<Byte>>, buf: seq<Byte>)
      requires Stable(decode) && AllRead(input)
      ensures Valid() && this.decode == decode && Stream() == buf + Flatten(input)
    {
      this.decode, this.input, this.buf := decode, input, buf;
    }

    /** The next message is that of the whole remaining stream, whatever has been read of it. */
    method NextMsg() returns (r: Outcome<M>)
      requires Valid()
      modifies this
      ensures Valid()
      ensures decode(old(Stream())).Frame? ==>
        r == Got(decode(old(Stream())).msg) && Stream() == old(Stream())[decode(old(Stream())).consumed..]
      ensures decode(old(Stream())).Bad? ==> r == Failed && Stream() == old(Stream())
      ensures decode(old(Stream())).More? ==> r == Ended && Stream() == old(Stream())
    {
      while true
        invariant Valid() && Stream() == old(Stream())
        decreases |input|
      {
        var d := decode(buf);
        assert !d.More? ==> decode(buf + Flatten(input)) == d;
        if d.Frame? {
          TailOf(buf, Flatten(input), d.consumed);
          buf := buf[d.consumed..];
          return Got(d.msg);
        }
        if d.Bad? {
          return Failed;
        }
        if input == [] {
          assert buf + [] == buf;
          return Ended;
        }
        FlattenFirst(input);
        Associative(buf, input[0], Flatten(input[1..]));
        buf := buf + input[0];
        input := input[1..];
      }
    }

    /** The receive loop: every message up to the first error or the end. */
    method ReceiveAll() returns (msgs: seq<M>, failed: bool)
      requires Valid()
      modifies this
      ensures Valid()
      ensures msgs == Messages(decode, old(Stream())) && failed == EndsBadly(decode, old(Stream()))
    {
      msgs, failed := [], false;
      assert [] + Messages(decode, Stream()) == Messages(decode, Stream());
      while true
        invariant Valid()
        invariant Messages(decode, old(Stream())) == msgs + Messages(decode, Stream())
        invariant EndsBadly(decode, old(Stream())) == EndsBadly(decode, Stream())
        decreases |Stream()|
      {
        ghost var before := Stream();
        var r := NextMsg();
        if r.Got? {
          Associative(msgs, [r.msg], Messages(decode, Stream()));
          msgs := msgs + [r.msg];
        } else {
          assert msgs + [] == msgs;
          return msgs, r.Failed?;
        }
      }
    }
  }

  lemma TailOf(a: seq<Byte>, b: seq<Byte>, n: nat)
    requires n <= |a|
    ensures (a + b)[n..] == a[n..] + b
  {
  }

  // ----- Codec negotiation -----

  ghost predicate FrameAt<M>(decode: Decoder<M>, input: seq<seq<Byte>>, k: nat) {
    k <= |input| && decode(Flatten(input[..k])).Frame?
  }

  /** After how many reads the first message is there: the least such number from `k` on. */
  ghost function ReadsUntil<M(!new)>(decode: Decoder<M>, input: seq<seq<Byte>>, k: nat): (r: nat)
    requires decode(Flatten(input)).Frame? && k <= |input|
    ensures k <= r && FrameAt(decode, input, r)
    ensures forall j :: k <= j < r ==> !FrameAt(decode, input, j)
    decreases |input| - k
  {
    assert input[..|input|] == input;
    if FrameAt(decode, input, k) then k else ReadsUntil(decode, input, k + 1)
  }

  /** What the client sent after its first message. */
  ghost function Rest<M(!new)>(decode: Decoder<M>, input: seq<seq<Byte>>): seq<Byte>
    requires Stable(decode) && decode(Flatten(input)).Frame?
  {
    Flatten(input)[decode(Flatten(input)).consumed..]
  }

  /** What has been read of it by the time the first message is there. */
  ghost function Leftover<M(!new)>(decode: Decoder<M>, input: seq<seq<Byte>>): seq<Byte>
    requires Stable(decode) && decode(Flatten(input)).Frame?
  {
    ReadsSplit(decode, input);
    Flatten(input[..ReadsUntil(decode, input, 0)])[decode(Flatten(input)).consumed..]
  }

  /** What is read later. */
  ghost function Unread<M(!new)>(decode: Decoder<M>, input: seq<seq<Byte>>): seq<Byte>
    requires Stable(decode) && decode(Flatten(input)).Frame?
  {
    Flatten(input[ReadsUntil(decode, input, 0)..])
  }

  lemma FlattenSplit<T>(input: seq<seq<T>>, k: nat)
    requires k <= |input|
    ensures Flatten(input[..k]) + Flatten(input[k..]) == Flatten(input)
  {
    FlattenConcat(input[..k], input[k..]);
    assert input[..k] + input[k..] == input;
  }

  lemma ReadsSplit<M(!new)>(decode: Decoder<M>, input: seq<seq<Byte>>)
    requires Stable(decode) && decode(Flatten(input)).Frame?
    ensures var k := ReadsUntil(decode, input, 0);
            decode(Flatten(input[..k])) == decode(Flatten(input)) && decode(Flatten(input)).consumed <= |Flatten(input[..k])|
  {
    var k := ReadsUntil(decode, input, 0);
    FlattenSplit(input, k);
    assert decode(Flatten(input[..k]) + Flatten(input[k..])) == decode(Flatten(input[..k]));
  }

  /** What follows the first message is what has been read of it and what has not. */
  lemma RestSplits<M(!new)>(decode: Decoder<M>, input: seq<seq<Byte>>)
    requires Stable(decode) && decode(Flatten(input)).Frame?
    ensures Rest(decode, input) == Leftover(decode, input) + Unread(decode, input)
  {
    var k := ReadsUntil(decode, input, 0);
    ReadsSplit(decode, input);
    FlattenSplit(input, k);
    TailOf(Flatten(input[..k]), Flatten(input[k..]), decode(Flatten(input)).consumed);
  }

  /** The messages the connection's loop serves, in the codec the first message picks. */
  ghost function Served<M(!new)>(json: Decoder<M>, binary: Decoder<M>, picksBinary: M -> bool, input: seq<seq<Byte>>): seq<M>
    requires Stable(json) && Stable(binary)
  {
    if !json(Flatten(input)).Frame? then []
    else if picksBinary(json(Flatten(input)).msg) then Messages(binary, Unread(json, input))
    else Messages(json, Rest(json, input))
  }

  /**
   * A connection with codec negotiation. The first message is decoded as a line of JSON,
   * an error counting as incomplete, and is not served by the loop that follows. A JSON
   * loop gets the bytes read beyond it; a binary loop does not: they are `dropped`.
   */
  method HandleConnection<M(!new)>(input: seq<seq<Byte>>, json: Decoder<M>, binary: Decoder<M>, picksBinary: M -> bool)
    returns (first: Option<M>, served: seq<M>, ghost dropped: seq<Byte>)
    requires Stable(json) && Stable(binary) && AllRead(input)
    ensures json(Flatten(input)).Frame? <==> first.Some?
    ensures served == Served(json, binary, picksBinary, input)
    ensures first.Some? ==>
      && first.value == json(Flatten(input)).msg
      && dropped == (if picksBinary(first.value) then Leftover(json, input) else [])
    ensures first.Some? && !picksBinary(first.value) ==>
      [first.value] + served == Messages(json, Flatten(input))
    ensures first.Some? && picksBinary(first.value) ==>
      exists later :: Rest(json, input) == dropped + later && served == Messages(binary, later)
  {
    var buf: seq<Byte>, rest := [], input;
    ghost var k := 0;
    first, served, dropped := None, [], [];
    while true
      invariant k <= |input| && buf == Flatten(input[..k]) && rest == input[k..] && AllRead(rest)
      invariant forall j :: 0 <= j < k ==> !FrameAt(json, input, j)
      decreases |rest|
    {
      FlattenSplit(input, k);
      var d := json(buf);
      assert !d.More? ==> json(buf + Flatten(rest)) == d;
      if d.Frame? {
        assert FrameAt(json, input, k) && ReadsUntil(json, input, 0) == k;
        RestSplits(json, input);
        buf := buf[d.consumed..];
        first := Some(d.msg);
        break;
      }
      if rest == [] {
        assert buf + [] == buf;
        return;
      }
      FlattenAppend(input[..k], rest[0]);
      assert input[..k + 1] == input[..k] + [rest[0]];
      buf := buf + rest[0];
      rest := rest[1..];
      k := k + 1;
    }
    if picksBinary(first.value) {
      dropped := buf;
      assert [] + Flatten(rest) == Flatten(rest);
      var frames := new Frames(binary, rest, []);
      var failed;
      served, failed := frames.ReceiveAll();
    } else {
      var frames := new Frames(json, rest, buf);
      var failed;
      served, failed := frames.ReceiveAll();
    }
  }

  /** A frame is there as soon as its own bytes are. */
  ghost predicate Tight<M(!new)>(decode: Decoder<M>) {
    forall b: seq<Byte> :: decode(b).Frame? && decode(b).consumed <= |b| ==> decode(b[..decode(b).consumed]).Frame?
  }

  /** Nothing is dropped exactly when the first message ends where a read ends. */
  lemma NothingDropped<M(!new)>(decode: Decoder<M>, input: seq<seq<Byte>>)
    requires Stable(decode) && Tight(decode) && decode(Flatten(input)).Frame?
    ensures Leftover(decode, input) == []
       <==> exists j :: 0 <= j <= |input| && |Flatten(input[..j])| == decode(Flatten(input)).consumed
  {
    var k, n := ReadsUntil(decode, input, 0), decode(Flatten(input)).consumed;
    ReadsSplit(decode, input);
    assert |Leftover(decode, input)| == |Flatten(input[..k])| - n;
    if j :| 0 <= j <= |input| && |Flatten(input[..j])| == n {
      FlattenSplit(input, j);
      assert Flatten(input)[..n] == Flatten(input[..j]);
      assert FrameAt(decode, input, j);
      FlattenSplit(input[..j], k);
      assert input[..j][..k] == input[..k];
    }
  }

  // ----- Newline framing -----

  const NEWLINE: Byte := 10

  /** One message per line; an empty line is an error. */
  function JsonLine<M>(parse: seq<Byte> -> Option<M>): Decoder<M> {
    (b: seq<Byte>) =>
      var i := IndexOf(b, NEWLINE);
      if i == |b| then More
      else if i == 0 then Bad
      else var m := parse(b[..i]); if m.Some? then Frame(m.value, i + 1) else Bad
  }

  lemma NewlineStays(b: seq<Byte>, more: seq<Byte>)
    requires IndexOf(b, NEWLINE) < |b|
    ensures IndexOf(b + more, NEWLINE) == IndexOf(b, NEWLINE)
  {
    var i, j := IndexOf(b, NEWLINE), IndexOf(b + more, NEWLINE);
    assert (b + more)[i] == NEWLINE;
    assert j < |b| ==> (b + more)[j] == b[j];
  }

  lemma JsonLineStays<M(!new)>(parse: seq<Byte> -> Option<M>, b: seq<Byte>, more: seq<Byte>)
    ensures var d := JsonLine(parse)(b);
            && (d.Frame? ==> 0 < d.consumed <= |b|)
            && (!d.More? ==> JsonLine(parse)(b + more) == d)
  {
    if IndexOf(b, NEWLINE) < |b| {
      NewlineStays(b, more);
      assert (b + more)[..IndexOf(b, NEWLINE)] == b[..IndexOf(b, NEWLINE)];
    }
  }

  lemma JsonLineIsStable<M(!new)>(parse: seq<Byte> -> Option<M>)
    ensures Stable(JsonLine(parse))
  {
    var decode := JsonLine(parse);
    forall b: seq<Byte> ensures decode(b).Frame? ==> 0 < decode(b).consumed <= |b| {
      JsonLineStays(parse, b, []);
    }
    forall b: seq<Byte>, more: seq<Byte> ensures !decode(b).More? ==> decode(b + more) == decode(b) {
      JsonLineStays(parse, b, more);
    }
  }

  lemma JsonLineIsTight<M(!new)>(parse: seq<Byte> -> Option<M>)
    ensures Tight(JsonLine(parse))
  {
    var decode := JsonLine(parse);
    JsonLineIsStable(parse);
    forall b: seq<Byte> | decode(b).Frame? ensures decode(b[..decode(b).consumed]).Frame? {
      var i := IndexOf(b, NEWLINE);
      var line := b[..i + 1];
      assert line[i] == NEWLINE && IndexOf(line, NEWLINE) == i && line[..i] == b[..i];
    }
  }

  /** A line with its newline is read back exactly when it has none inside and is not empty. */
  lemma JsonLineReadsBack<M(!new)>(parse: seq<Byte> -> Option<M>, line: seq<Byte>, more: seq<Byte>)
    requires parse(line).Some?
    ensures JsonLine(parse)(line + [NEWLINE] + more) == Frame(parse(line).value, |line| + 1)
       <==> line != [] && NEWLINE !in line
  {
    var b := line + [NEWLINE] + more;
    NewlineAfter(line, more);
    if IndexOf(b, NEWLINE) == |line| {
      assert b[..|line|] == line;
    }
  }

  lemma NewlineAfter(line: seq<Byte>, more: seq<Byte>)
    ensures IndexOf(line + [NEWLINE] + more, NEWLINE) <= |line|
    ensures IndexOf(line + [NEWLINE] + more, NEWLINE) == |line| <==> NEWLINE !in line
  {
    var b := line + [NEWLINE] + more;
    assert b[|line|] == NEWLINE;
    var i := IndexOf(b, NEWLINE);
    assert i < |line| ==> line[i] == b[i];
    assert forall j :: 0 <= j < |line| ==> b[j] == line[j];
  }

  // ----- Length-prefix framing -----

  const U32: nat := 0x1_0000_0000

  function LittleEndian(b: seq<Byte>): nat
    requires |b| == 4
  {
    b[0] as int + 0x100 * b[1] as int + 0x1_0000 * b[2] as int + 0x100_0000 * b[3] as int
  }

  function ToLittleEndian(n: nat): (b: seq<Byte>)
    requires n < U32
    ensures |b| == 4
  {
    [(n % 0x100) as Byte, (n / 0x100 % 0x100) as Byte, (n / 0x1_0000 % 0x100) as Byte, (n / 0x100_0000) as Byte]
  }

  lemma LittleEndianRoundTrip(n: nat)
    requires n < U32
    ensures LittleEndian(ToLittleEndian(n)) == n
  {
    assert n / 0x100 == n / 0x1_0000 * 0x100 + n / 0x100 % 0x100;
    assert n / 0x1_0000 == n / 0x100_0000 * 0x100 + n / 0x1_0000 % 0x100;
  }

  /** A four-byte little-endian length, then that many bytes. */
  function LengthPrefix<M>(parse: seq<Byte> -> Option<M>): Decoder<M> {
    (b: seq<Byte>) =>
      if |b| < 4 then More
      else
        var total := 4 + LittleEndian(b[..4]);
        if |b| < total then More
        else var m := parse(b[4..total]); if m.Some? then Frame(m.value, total) else Bad
  }

  lemma LengthPrefixIsStable<M(!new)>(parse: seq<Byte> -> Option<M>)
    ensures Stable(LengthPrefix(parse))
  {
    forall b, more: seq<Byte> | !LengthPrefix(parse)(b).More?
      ensures LengthPrefix(parse)(b + more) == LengthPrefix(parse)(b)
    {
      assert (b + more)[..4] == b[..4];
      var total := 4 + LittleEndian(b[..4]);
      assert (b + more)[4..total] == b[4..total];
    }
  }

  /** The length is written as 32 bits, so a longer payload wraps around. */
  function Framed(payload: seq<Byte>): seq<Byte> {
    ToLittleEndian(|payload| % U32) + payload
  }

  /** A framed payload is read back whole exactly when its length fits in 32 bits. */
  lemma FramedReadsBack<M(!new)>(parse: seq<Byte> -> Option<M>, payload: seq<Byte>, more: seq<Byte>)
    requires parse(payload).Some?
    ensures LengthPrefix(parse)(Framed(payload) + more) == Frame(parse(payload).value, |Framed(payload)|) <==> |payload| < U32
  {
    var b := Framed(payload) + more;
    var n := |payload| % U32;
    LittleEndianRoundTrip(n);
    assert b[..4] == ToLittleEndian(n);
    if |payload| < U32 {
      assert b[4..4 + n] == payload;
    }
  }

  function FramedAll(payloads: seq<seq<Byte>>): seq<Byte> {
    if payloads == [] then [] else Framed(payloads[0]) + FramedAll(payloads[1..])
  }

  function ParsedAll<M>(parse: seq<Byte> -> Option<M>, payloads: seq<seq<Byte>>): (r: seq<M>)
    requires forall i :: 0 <= i < |payloads| ==> parse(payloads[i]).Some?
    ensures |r| == |payloads| && forall i :: 0 <= i < |r| ==> r[i] == parse(payloads[i]).value
  {
    seq(|payloads|, i requires 0 <= i < |payloads| => parse(payloads[i]).value)
  }

  lemma FramedFirst<M(!new)>(parse: seq<Byte> -> Option<M>, payload: seq<Byte>, later: seq<Byte>)
    requires parse(payload).Some? && |payload| < U32
    ensures Stable(LengthPrefix(parse))
    ensures var decode, stream := LengthPrefix(parse), Framed(payload) + later;
            && Messages(decode, stream) == [parse(payload).value] + Messages(decode, later)
            && EndsBadly(decode, stream) == EndsBadly(decode, later)
  {
    LengthPrefixIsStable(parse);
    FramedReadsBack(parse, payload, later);
    assert (Framed(payload) + later)[|Framed(payload)|..] == later;
  }

  /** A stream of framed payloads carries exactly their messages, in order. */
  lemma {:induction false} FramedStreamReadsBack<M(!new)>(parse: seq<Byte> -> Option<M>, payloads: seq<seq<Byte>>)
    requires forall i :: 0 <= i < |payloads| ==> parse(payloads[i]).Some? && |payloads[i]| < U32
    ensures Stable(LengthPrefix(parse))
    ensures Messages(LengthPrefix(parse), FramedAll(payloads)) == ParsedAll(parse, payloads)
    ensures !EndsBadly(LengthPrefix(parse), FramedAll(payloads))
  {
    LengthPrefixIsStable(parse);
    if payloads != [] {
      FramedFirst(parse, payloads[0], FramedAll(payloads[1..]));
      FramedStreamReadsBack(parse, payloads[1..]);
    }
  }

  /** Messages sent together with the first one are lost, the later ones served. */
  lemma {:induction false} LeftoverIsLost<M(!new)>(parse: seq<Byte> -> Option<M>, payloads: seq<seq<Byte>>, later: seq<Byte>)
    requires forall i :: 0 <= i < |payloads| ==> parse(payloads[i]).Some? && |payloads[i]| < U32
    ensures Stable(LengthPrefix(parse))
    ensures Messages(LengthPrefix(parse), FramedAll(payloads) + later)
         == ParsedAll(parse, payloads) + Messages(LengthPrefix(parse), later)
  {
    LengthPrefixIsStable(parse);
    if payloads == [] {
      assert [] + later == later;
    } else {
      var first, rest := payloads[0], payloads[1..];
      Associative(Framed(first), FramedAll(rest), later);
      FramedFirst(parse, first, FramedAll(rest) + later);
      LeftoverIsLost(parse, rest, later);
      assert ParsedAll(parse, payloads) == [parse(first).value] + ParsedAll(parse, rest);
      Associative([parse(first).value], ParsedAll(parse, rest), Messages(LengthPrefix(parse), later));
    }
  }

  /**
   * A client that sends binary messages right behind its first line, in the read that
   * holds it, loses exactly those: the loop serves what it sends afterwards.
   */
  lemma PipelinedMessagesAreLost<M(!new)>(parse: seq<Byte> -> Option<M>, json: Decoder<M>, picksBinary: M -> bool,
                                          input: seq<seq<Byte>>, payloads: seq<seq<Byte>>)
    requires Stable(json) && json(Flatten(input)).Frame? && picksBinary(json(Flatten(input)).msg)
    requires forall i :: 0 <= i < |payloads| ==> parse(payloads[i]).Some? && |payloads[i]| < U32
    requires Leftover(json, input) == FramedAll(payloads)
    ensures Stable(LengthPrefix(parse))
    ensures Messages(LengthPrefix(parse), Rest(json, input))
         == ParsedAll(parse, payloads) + Served(json, LengthPrefix(parse), picksBinary, input)
  {
    RestSplits(json, input);
    LeftoverIsLost(parse, payloads, Unread(json, input));
  }

  /** One read: a line, and a binary message behind it. */
  const PIPELINED: seq<Byte> := [65, 10, 1, 0, 0, 0, 66]

  function Whole(b: seq<Byte>): Option<seq<Byte>> { Some(b) }

  lemma PipelinedLine()
    ensures JsonLine(Whole)(PIPELINED) == Frame([65], 2)
    ensures Flatten([PIPELINED]) == PIPELINED
  {
    JsonLineReadsBack(Whole, [65], [1, 0, 0, 0, 66]);
    assert PIPELINED == [65] + [NEWLINE] + [1, 0, 0, 0, 66];
    FlattenOne(PIPELINED);
  }

  lemma PipelinedReads()
    ensures JsonLine(Whole)(Flatten([PIPELINED])).Frame? && ReadsUntil(JsonLine(Whole), [PIPELINED], 0) == 1
  {
    PipelinedLine();
    var input := [PIPELINED];
    assert input[..0] == [] && JsonLine(Whole)([]).More? && !FrameAt(JsonLine(Whole), input, 0);
    assert input[..1] == input && FrameAt(JsonLine(Whole), input, 1);
  }

  lemma PipelinedLeftover()
    ensures Stable(JsonLine(Whole)) && JsonLine(Whole)(Flatten([PIPELINED])).Frame?
    ensures Leftover(JsonLine(Whole), [PIPELINED]) == FramedAll([[66]])
    ensures Unread(JsonLine(Whole), [PIPELINED]) == []
  {
    JsonLineIsStable(Whole);
    PipelinedLine();
    PipelinedReads();
    FramedOne();
    assert [PIPELINED][..1] == [PIPELINED] && PIPELINED[2..] == [1, 0, 0, 0, 66];
  }

  lemma FramedOne()
    ensures FramedAll([[66]]) == [1, 0, 0, 0, 66]
  {
    assert FramedAll([]) == [] && ToLittleEndian(1) == [1, 0, 0, 0];
    assert Framed([66]) == [1, 0, 0, 0] + [66];
  }

  /** The message is sent and not served. */
  lemma PipelinedMessageIsLost(picksBinary: seq<Byte> -> bool)
    requires picksBinary([65])
    ensures var json, binary := JsonLine(Whole), LengthPrefix(Whole);
            && Stable(json) && Stable(binary) && json(Flatten([PIPELINED])) == Frame([65], 2)
            && Messages(binary, Rest(json, [PIPELINED])) == [[66]]
            && Served(json, binary, picksBinary, [PIPELINED]) == []
  {
    LengthPrefixIsStable(Whole);
    PipelinedLine();
    PipelinedLeftover();
    PipelinedMessagesAreLost(Whole, JsonLine(Whole), picksBinary, [PIPELINED], [[66]]);
    assert ParsedAll(Whole, [[66]]) == [[66]] && Messages(LengthPrefix(Whole), []) == [];
  }
}
