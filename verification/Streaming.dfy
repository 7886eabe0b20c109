/** Streaming a reply: the token loop, and everything one invoke publishes. */
module Streaming {
  import opened Basics

  /** What the loop waits for: the token stream, or a change of the abort flag. */
  datatype StreamEvent = Token(text: string) | StreamError | StreamEnd | AbortChanged(on: bool)

  datatype TokenChunk = TokenChunk(id: string, text: string)

  predicate EndsLoop(e: StreamEvent) {
    e.StreamError? || e.StreamEnd? || (e.AbortChanged? && e.on)
  }

  function ReasonOf(e: StreamEvent): string {
    if e.StreamError? then "error" else if e.AbortChanged? then "abort" else "stop"
  }

  /** Where the loop ends, or how many events there are when it does not. */
  function FirstEnd(events: seq<StreamEvent>): (n: nat)
    ensures n <= |events| && (n < |events| ==> EndsLoop(events[n]))
    ensures forall i :: 0 <= i < n ==> !EndsLoop(events[i])
  {
    if events == [] || EndsLoop(events[0]) then 0
    else
      var n := FirstEnd(events[1..]) + 1;
      assert forall i :: 1 <= i < n ==> events[i] == events[1..][i - 1];
      n
  }

  /** The token texts among some events, in order. */
  function Texts(events: seq<StreamEvent>): seq<string> {
    if events == [] then []
    else
      var last := events[|events| - 1];
      var earlier := Texts(events[..|events| - 1]);
      if last.Token? then earlier + [last.text] else earlier
  }

  /** The chunks emitted for some texts, the i-th under the i-th fresh id. */
  function Emitted(texts: seq<string>, ids: nat -> string): (r: seq<TokenChunk>)
    ensures |r| == |texts| && forall i :: 0 <= i < |r| ==> r[i] == TokenChunk(ids(i), texts[i])
  {
    seq(|texts|, i requires 0 <= i < |texts| => TokenChunk(ids(i), texts[i]))
  }

  function IdsOf(chunks: seq<TokenChunk>): (r: seq<string>)
    ensures |r| == |chunks| && forall i :: 0 <= i < |r| ==> r[i] == chunks[i].id
  {
    seq(|chunks|, i requires 0 <= i < |chunks| => chunks[i].id)
  }

  lemma TextsStep(events: seq<StreamEvent>, k: nat)
    requires k < |events|
    ensures Texts(events[..k + 1])
         == if events[k].Token? then Texts(events[..k]) + [events[k].text] else Texts(events[..k])
  {
    assert events[..k + 1][..k] == events[..k];
  }

  lemma EmittedStep(texts: seq<string>, text: string, ids: nat -> string)
    ensures Emitted(texts + [text], ids) == Emitted(texts, ids) + [TokenChunk(ids(|texts|), text)]
    ensures IdsOf(Emitted(texts + [text], ids)) == IdsOf(Emitted(texts, ids)) + [ids(|texts|)]
  {
  }

  /**
   * Every token up to the first end, error or abort is emitted once and in order, and
   * nothing after it; the reply is their concatenation. No reason: the loop still waits.
   */
  method RunStreamLoop(events: seq<StreamEvent>, ids: nat -> string)
    returns (reason: Option<string>, response: string, tokenIds: seq<string>, emitted: seq<TokenChunk>)
    ensures var n := FirstEnd(events);
            && emitted == Emitted(Texts(events[..n]), ids)
            && response == Flatten(Texts(events[..n])) && tokenIds == IdsOf(emitted)
            && reason == if n < |events| then Some(ReasonOf(events[n])) else None
  {
    reason, response, tokenIds, emitted := None, "", [], [];
    var k := 0;
    ghost var n := FirstEnd(events);
    assert events[..0] == [];
    while k < |events|
      invariant k <= n && reason.None?
      invariant emitted == Emitted(Texts(events[..k]), ids)
      invariant response == Flatten(Texts(events[..k])) && tokenIds == IdsOf(emitted)
    {
      var event := events[k];
      if event.StreamError? {
        reason := Some("error");
        break;
      } else if event.StreamEnd? {
        reason := Some("stop");
        break;
      } else if event.AbortChanged? && event.on {
        reason := Some("abort");
        break;
      }
      assert !EndsLoop(events[k]);
      TextsStep(events, k);
      if event.Token? {
        FlattenAppend(Texts(events[..k]), event.text);
        EmittedStep(Texts(events[..k]), event.text, ids);
        response := response + event.text;
        var chunk := TokenChunk(ids(|emitted|), event.text);
        tokenIds := tokenIds + [chunk.id];
        emitted := emitted + [chunk];
      }
      k := k + 1;
    }
  }

  // ----- What one invoke publishes -----

  datatype Published =
    | ErrorNote
    | Started
    | Streamed(token: TokenChunk)
    | Reply(text: string)
    | Tombstone(ids: seq<string>)
    | Complete(reason: string)
    | RpcResponse(callId: string, ok: bool)

  function Tokens(chunks: seq<TokenChunk>): (r: seq<Published>)
    ensures |r| == |chunks| && forall i :: 0 <= i < |r| ==> r[i] == Streamed(chunks[i])
  {
    seq(|chunks|, i requires 0 <= i < |chunks| => Streamed(chunks[i]))
  }

  /** `opens` says whether the backend starts a stream at all. */
  method HandleResponse(opens: bool, events: seq<StreamEvent>, ids: nat -> string, callId: string)
    returns (published: seq<Published>)
    ensures published == Answer(opens, events, ids, callId)
  {
    if !opens {
      return [ErrorNote, RpcResponse(callId, false)];
    }
    published := [Started];
    var reason, response, tokenIds, emitted := RunStreamLoop(events, ids);
    published := published + Tokens(emitted);
    if reason.None? {
      return;
    }
    if response != "" {
      published := published + [Reply(response)];
    }
    published := published + [Tombstone(tokenIds), Complete(reason.value), RpcResponse(callId, true)];
  }

  function Answer(opens: bool, events: seq<StreamEvent>, ids: nat -> string, callId: string): seq<Published> {
    if !opens then [ErrorNote, RpcResponse(callId, false)]
    else
      var n := FirstEnd(events);
      var texts := Texts(events[..n]);
      var streaming := [Started] + Tokens(Emitted(texts, ids));
      if n == |events| then streaming
      else
        (if Flatten(texts) != "" then streaming + [Reply(Flatten(texts))] else streaming)
        + [Tombstone(IdsOf(Emitted(texts, ids))), Complete(ReasonOf(events[n])), RpcResponse(callId, true)]
  }

  /** The stream has come to an end, or never started. */
  predicate Ended(opens: bool, events: seq<StreamEvent>) {
    !opens || FirstEnd(events) < |events|
  }

  /**
   * An invoke is answered once: by its last chunk, when the stream has ended, and never
   * before. The answer says failure only when the backend did not start; a stream that
   * breaks off in an error or an abort is answered as a success.
   */
  lemma AnsweredOnce(opens: bool, events: seq<StreamEvent>, ids: nat -> string, callId: string)
    ensures var out := Answer(opens, events, ids, callId);
            && out != []
            && (forall i :: 0 <= i < |out| && out[i].RpcResponse? ==> i == |out| - 1)
            && (out[|out| - 1].RpcResponse? <==> Ended(opens, events))
            && (Ended(opens, events) ==> out[|out| - 1] == RpcResponse(callId, opens))
  {
    if opens {
      AnswerParts(opens, events, ids, callId);
      var streaming := [Started] + Tokens(Emitted(Texts(events[..FirstEnd(events)]), ids));
      var out := Answer(opens, events, ids, callId);
      assert forall i :: 0 <= i < |streaming| ==> !streaming[i].RpcResponse?;
      forall i | 0 <= i < |out| ensures out[i].RpcResponse? ==> i == |out| - 1 {
        assert i < |streaming| ==> out[i] == streaming[i];
        assert i >= |streaming| ==> out[i] == Closing(events, ids, callId)[i - |streaming|];
      }
    }
  }

  /** The backend produced the whole reply. */
  predicate Completed(opens: bool, events: seq<StreamEvent>) {
    opens && FirstEnd(events) < |events| && events[FirstEnd(events)].StreamEnd?
  }

  /** The stream was opened and then ended in an error or was aborted. */
  predicate BreaksOff(opens: bool, events: seq<StreamEvent>) {
    opens && FirstEnd(events) < |events| && !events[FirstEnd(events)].StreamEnd?
  }

  /** The answer tells whether the reply is complete exactly when the stream does not break off. */
  lemma AnswerIsRight(opens: bool, events: seq<StreamEvent>, ids: nat -> string, callId: string)
    requires Ended(opens, events)
    ensures var out := Answer(opens, events, ids, callId);
            && out != [] && out[|out| - 1].RpcResponse?
            && ((out[|out| - 1].ok <==> Completed(opens, events)) <==> !BreaksOff(opens, events))
  {
    AnsweredOnce(opens, events, ids, callId);
  }

  /** One token and then an error: the call is answered as a success. */
  lemma BrokenStreamSucceeds(ids: nat -> string, callId: string)
    ensures var events := [Token("a"), StreamError];
            var out := Answer(true, events, ids, callId);
            && BreaksOff(true, events)
            && out == [Started, Streamed(TokenChunk(ids(0), "a")), Reply("a"), Tombstone([ids(0)]),
                       Complete("error"), RpcResponse(callId, true)]
  {
    var events := [Token("a"), StreamError];
    assert FirstEnd(events) == 1 && events[..1] == [Token("a")] && events[..1][..0] == [];
    assert Texts(events[..1]) == ["a"];
    FlattenOne("a");
    assert Emitted(["a"], ids) == [TokenChunk(ids(0), "a")];
    assert Tokens([TokenChunk(ids(0), "a")]) == [Streamed(TokenChunk(ids(0), "a"))];
    assert IdsOf([TokenChunk(ids(0), "a")]) == [ids(0)];
  }

  /** The tombstone retires exactly the tokens streamed, and the reply is their concatenation. */
  lemma ReplyIsWhatStreamed(events: seq<StreamEvent>, ids: nat -> string, callId: string)
    ensures var out := Answer(true, events, ids, callId);
            var texts := Texts(events[..FirstEnd(events)]);
            var emitted := Emitted(texts, ids);
            && out[..1 + |emitted|] == [Started] + Tokens(emitted)
            && (forall i :: 1 + |emitted| <= i < |out| ==>
                  && !out[i].Streamed?
                  && (out[i].Reply? ==> out[i].text == Flatten(texts) && out[i].text != "")
                  && (out[i].Tombstone? ==> out[i].ids == IdsOf(emitted)))
  {
    var emitted := Emitted(Texts(events[..FirstEnd(events)]), ids);
    var streaming, closing := [Started] + Tokens(emitted), Closing(events, ids, callId);
    AnswerParts(true, events, ids, callId);
    SplitAt(streaming, closing);
    ClosingIs(events, ids, callId);
  }

  lemma SplitAt(a: seq<Published>, b: seq<Published>)
    ensures (a + b)[..|a|] == a && forall i :: |a| <= i < |a + b| ==> (a + b)[i] == b[i - |a|]
  {
  }

  lemma ClosingIs(events: seq<StreamEvent>, ids: nat -> string, callId: string)
    ensures var texts := Texts(events[..FirstEnd(events)]);
            forall i :: 0 <= i < |Closing(events, ids, callId)| ==>
              var m := Closing(events, ids, callId)[i];
              && !m.Streamed? && (m.Reply? ==> m.text == Flatten(texts) && m.text != "")
              && (m.Tombstone? ==> m.ids == IdsOf(Emitted(texts, ids)))
  {
  }

  /** What follows the streamed tokens. */
  function Closing(events: seq<StreamEvent>, ids: nat -> string, callId: string): seq<Published> {
    var n := FirstEnd(events);
    var texts := Texts(events[..n]);
    if n == |events| then []
    else
      (if Flatten(texts) != "" then [Reply(Flatten(texts))] else [])
      + [Tombstone(IdsOf(Emitted(texts, ids))), Complete(ReasonOf(events[n])), RpcResponse(callId, true)]
  }

  lemma AnswerParts(opens: bool, events: seq<StreamEvent>, ids: nat -> string, callId: string)
    requires opens
    ensures var emitted := Emitted(Texts(events[..FirstEnd(events)]), ids);
            Answer(opens, events, ids, callId) == [Started] + Tokens(emitted) + Closing(events, ids, callId)
  {
  }
}
