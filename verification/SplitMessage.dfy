/**
 * Splitting a reply for Telegram. A text is a sequence of characters; its byte length is
 * that of its UTF-8 encoding (RFC 3629, section 3).
 */
module SplitMessage {
  import opened Basics

  const MAX_MESSAGE: nat := 4096

  function Width(c: char): (w: nat)
    ensures 1 <= w <= 4
  {
    var n := c as int;
    if n < 0x80 then 1 else if n < 0x800 then 2 else if n < 0x10000 then 3 else 4
  }

  function Bytes(text: string): (n: nat)
    ensures n >= |text|
  {
    if text == "" then 0 else Width(text[0]) + Bytes(text[1..])
  }

  predicate SingleByte(text: string) {
    forall i :: 0 <= i < |text| ==> Width(text[i]) == 1
  }

  /** One past the last newline of a window, or zero. */
  function AfterNewline(window: string): (k: nat)
    ensures k <= |window| && (k > 0 ==> window[k - 1] == '\n')
    ensures forall j :: k <= j < |window| ==> window[j] != '\n'
  {
    if window == "" then 0
    else if window[|window| - 1] == '\n' then |window|
    else AfterNewline(window[..|window| - 1])
  }

  function Window(runes: string): string {
    if |runes| < MAX_MESSAGE then runes else runes[..MAX_MESSAGE]
  }

  /**
   * How many characters the code takes for the next part: up to the last newline of the
   * window if there is one. The newline's place is found as a BYTE index, and used as a
   * count of characters.
   */
  function Cut(runes: string): (n: nat)
    ensures runes != "" ==> n > 0
  {
    var k := AfterNewline(Window(runes));
    if k > 0 then Bytes(Window(runes)[..k - 1]) + 1 else |Window(runes)|
  }

  /** The parts, or None where a cut reaches beyond the text: the slice is out of range there and Go panics. */
  function Parts(runes: string): Option<seq<string>>
    decreases |runes|
  {
    if runes == "" then Some([])
    else if Cut(runes) > |runes| then None
    else
      var rest := Parts(runes[Cut(runes)..]);
      if rest.None? then None else Some([runes[..Cut(runes)]] + rest.value)
  }

  function Split(text: string): Option<seq<string>> {
    if Bytes(text) <= MAX_MESSAGE then Some([text]) else Parts(text)
  }

  function Onto(parts: seq<string>, rest: Option<seq<string>>): Option<seq<string>> {
    if rest.None? then None else Some(parts + rest.value)
  }

  lemma OntoNothing(rest: Option<seq<string>>)
    ensures Onto([], rest) == rest
  {
    assert rest.Some? ==> [] + rest.value == rest.value;
  }

  lemma PartsStep(parts: seq<string>, runes: string)
    requires runes != "" && Cut(runes) <= |runes|
    ensures Onto(parts, Parts(runes)) == Onto(parts + [runes[..Cut(runes)]], Parts(runes[Cut(runes)..]))
  {
    var rest := Parts(runes[Cut(runes)..]);
    if rest.Some? {
      Associative(parts, [runes[..Cut(runes)]], rest.value);
    }
  }

  method SplitText(text: string) returns (r: Option<seq<string>>)
    ensures r == Split(text)
  {
    if Bytes(text) <= MAX_MESSAGE {
      return Some([text]);
    }
    var parts: seq<string> := [];
    var runes := text;
    OntoNothing(Parts(text));
    while |runes| > 0
      invariant Parts(text) == Onto(parts, Parts(runes))
      decreases |runes|
    {
      var n := MAX_MESSAGE;
      if |runes| < n {
        n := |runes|;
      }
      var window := runes[..n];
      assert window == Window(runes);
      var after := AfterNewline(window);
      if after > 0 {
        n := Bytes(window[..after - 1]) + 1;
      }
      assert n == Cut(runes);
      if n > |runes| {
        return None;
      }
      PartsStep(parts, runes);
      parts := parts + [runes[..n]];
      runes := runes[n..];
    }
    r := Some(parts);
    assert parts + [] == parts;
  }

  /** Whenever the parts are defined, none is empty and together they are the text. */
  lemma {:induction false} PartsConcat(runes: string)
    requires Parts(runes).Some?
    ensures Flatten(Parts(runes).value) == runes
    ensures forall i :: 0 <= i < |Parts(runes).value| ==> Parts(runes).value[i] != ""
    decreases |runes|
  {
    if runes != "" {
      var n := Cut(runes);
      PartsConcat(runes[n..]);
      FlattenFirst(Parts(runes).value);
      assert Parts(runes).value[1..] == Parts(runes[n..]).value;
      assert runes == runes[..n] + runes[n..];
    }
  }

  lemma SplitConcat(text: string)
    requires Split(text).Some?
    ensures Flatten(Split(text).value) == text
    ensures text != "" ==> forall i :: 0 <= i < |Split(text).value| ==> Split(text).value[i] != ""
  {
    if Bytes(text) <= MAX_MESSAGE {
      FlattenFirst([text]);
      assert [text][1..] == [] && text + "" == text;
    } else {
      PartsConcat(text);
    }
  }

  // ----- When the parts fit -----

  predicate Fit(parts: seq<string>) {
    forall i :: 0 <= i < |parts| ==> |parts[i]| <= MAX_MESSAGE
  }

  /**
   * No window's last newline has more bytes up to and including it than the window has
   * characters: the guard of the slice, window by window.
   */
  predicate NewlinesInReach(runes: string)
    decreases |runes|
  {
    runes == "" || (Cut(runes) <= |Window(runes)| && NewlinesInReach(runes[Cut(runes)..]))
  }

  /** The text splits into parts that fit exactly when every window's newline is in reach. */
  lemma {:induction false} PartsFit(runes: string)
    ensures (Parts(runes).Some? && Fit(Parts(runes).value)) <==> NewlinesInReach(runes)
    decreases |runes|
  {
    if runes != "" && Cut(runes) <= |runes| {
      var n := Cut(runes);
      PartsFit(runes[n..]);
      if Parts(runes[n..]).Some? {
        var parts, rest := Parts(runes).value, Parts(runes[n..]).value;
        assert parts[0] == runes[..n] && parts[1..] == rest;
        assert Fit(parts) <==> n <= MAX_MESSAGE && Fit(rest) by {
          assert forall i :: 0 < i < |parts| ==> parts[i] == rest[i - 1];
          assert forall i :: 0 <= i < |rest| ==> rest[i] == parts[i + 1];
        }
      }
    }
  }

  lemma {:induction false} SingleByteLength(text: string)
    requires SingleByte(text)
    ensures Bytes(text) == |text|
  {
    if text != "" {
      SingleByteLength(text[1..]);
    }
  }

  /** Up to its last newline the text is single-byte: something to see in the text alone. */
  predicate SingleByteLines(text: string) {
    SingleByte(text[..AfterNewline(text)])
  }

  lemma WindowNewline(runes: string)
    ensures AfterNewline(Window(runes)) <= AfterNewline(runes)
  {
    var k := AfterNewline(Window(runes));
    assert k > 0 ==> runes[k - 1] == '\n';
  }

  lemma RestNewline(runes: string, n: nat)
    requires n <= |runes|
    ensures AfterNewline(runes[n..]) > 0 ==> n + AfterNewline(runes[n..]) <= AfterNewline(runes)
  {
    var k := AfterNewline(runes[n..]);
    assert k > 0 ==> runes[n + k - 1] == '\n';
  }

  /** Then every newline is in reach. */
  lemma {:induction false} SingleByteInReach(runes: string)
    requires SingleByteLines(runes)
    ensures NewlinesInReach(runes)
    decreases |runes|
  {
    if runes != "" {
      var k := AfterNewline(Window(runes));
      WindowNewline(runes);
      if k > 0 {
        assert Window(runes)[..k - 1] == runes[..AfterNewline(runes)][..k - 1];
        SingleByteLength(Window(runes)[..k - 1]);
      }
      var n := Cut(runes);
      RestNewline(runes, n);
      var rest := runes[n..];
      forall i | 0 <= i < AfterNewline(rest) ensures Width(rest[..AfterNewline(rest)][i]) == 1 {
        assert rest[i] == runes[..AfterNewline(runes)][n + i];
      }
      SingleByteInReach(rest);
    }
  }

  /**
   * A text splits into parts that fit whenever it is single-byte up to its last newline,
   * so in particular when it has no newline at all or is single-byte throughout.
   */
  lemma SingleByteLinesSplit(text: string)
    requires SingleByteLines(text)
    ensures Split(text).Some? && Fit(Split(text).value) && Flatten(Split(text).value) == text
  {
    SingleByteInReach(text);
    PartsFit(text);
    SplitConcat(text);
  }

  /** Single-byte text splits into parts that fit and make up the text. */
  lemma SingleByteSplits(text: string)
    requires SingleByte(text)
    ensures Split(text).Some? && Fit(Split(text).value) && Flatten(Split(text).value) == text
  {
    SingleByteLinesSplit(text);
  }

  /** A two-byte letter 2100 times over and then a newline. */
  function Letters(): string {
    seq(2100, i => '\U{00E9}')
  }

  /** On this text of 2101 characters the first cut is at 4201: the slice runs past the end. */
  lemma MultiByteBreaks()
    ensures |Letters() + "\n"| == 2101 && Cut(Letters() + "\n") == 4201 && Split(Letters() + "\n").None?
  {
    var text := Letters() + "\n";
    TwoByteLength(Letters());
    BytesConcat(Letters(), "\n");
    assert Bytes("\n") == 1 by { assert "\n"[1..] == ""; }
    assert Window(text) == text;
    assert AfterNewline(text) == |text| && text[..|text| - 1] == Letters();
  }

  lemma {:induction false} TwoByteLength(text: string)
    requires forall i :: 0 <= i < |text| ==> Width(text[i]) == 2
    ensures Bytes(text) == 2 * |text|
  {
    if text != "" {
      TwoByteLength(text[1..]);
    }
  }

  lemma {:induction false} BytesConcat(a: string, b: string)
    ensures Bytes(a + b) == Bytes(a) + Bytes(b)
  {
    if a == "" {
      assert a + b == b;
    } else {
      assert (a + b)[1..] == a[1..] + b;
      BytesConcat(a[1..], b);
    }
  }

  // ----- Editing the placeholder, then sending the rest -----

  /** What the chat shows at the end: the edited placeholder, then the messages sent after it. */
  method Deliver(accumulated: string) returns (shown: Option<seq<string>>)
    ensures shown == Delivered(if accumulated == "" then "(no response)" else accumulated)
  {
    var text := if accumulated == "" then "(no response)" else accumulated;
    var parts := SplitText(text);
    if parts.None? {
      return None;
    }
    if |parts.value| == 1 {
      return Some([parts.value[0]]);
    }
    DeliveredHasParts(text);
    var more := SplitText(Flatten(parts.value[1..]));
    if more.None? {
      return None;
    }
    shown := Some([parts.value[0]] + more.value);
  }

  function Delivered(text: string): Option<seq<string>> {
    var parts := Split(text);
    if parts.None? || parts.value == [] then None
    else if |parts.value| == 1 then Some([parts.value[0]])
    else
      var more := Split(Flatten(parts.value[1..]));
      if more.None? then None else Some([parts.value[0]] + more.value)
  }

  lemma DeliveredHasParts(text: string)
    ensures Split(text).Some? ==> Split(text).value != []
  {
  }

  /** Joining the later parts and splitting again gives those parts, or one message if they are short. */
  lemma ResplitIsRest(text: string)
    requires Bytes(text) > MAX_MESSAGE && Parts(text).Some?
    ensures Parts(text).value != []
    ensures var rest := Parts(text).value[1..];
            Split(Flatten(rest)) == if Bytes(Flatten(rest)) <= MAX_MESSAGE then Some([Flatten(rest)]) else Some(rest)
  {
    var n := Cut(text);
    PartsConcat(text[n..]);
    assert Parts(text).value[1..] == Parts(text[n..]).value;
  }

  /** Whenever the first split is defined, editing and re-sending delivers the whole text in order. */
  lemma DeliversEverything(text: string)
    requires Split(text).Some?
    ensures Delivered(text).Some? && Flatten(Delivered(text).value) == text
    ensures Fit(Split(text).value) ==> Fit(Delivered(text).value)
  {
    var parts := Split(text).value;
    SplitConcat(text);
    if |parts| == 1 {
      assert [parts[0]] == parts;
    } else {
      ResplitIsRest(text);
      var more := Split(Flatten(parts[1..])).value;
      SplitConcat(Flatten(parts[1..]));
      FlattenFirst(parts);
      FlattenFirst([parts[0]] + more);
      assert ([parts[0]] + more)[1..] == more;
    }
  }

  /**
   * On single-byte text each part but a short last one ends at the last newline of its
   * window, or is the whole window when there is none.
   */
  lemma SingleByteCut(runes: string)
    requires SingleByte(runes) && runes != ""
    ensures Cut(runes) <= |Window(runes)| <= |runes|
    ensures var part := runes[..Cut(runes)];
            && part <= Window(runes)
            && (part == Window(runes) || part[|part| - 1] == '\n')
            && (forall i :: |part| <= i < |Window(runes)| ==> Window(runes)[i] != '\n')
            && ('\n' in Window(runes) ==> part[|part| - 1] == '\n')
  {
    var k := AfterNewline(Window(runes));
    if k > 0 {
      SingleByteLength(Window(runes)[..k - 1]);
    }
  }
}
