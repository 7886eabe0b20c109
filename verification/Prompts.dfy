/**
 * Prompt building and compaction in the LLM service: coalescing a session's history into
 * messages, keeping the longest suffix that meets the budgets, and reading the runtime
 * configuration back. Strings are byte strings, so lengths are byte lengths.
 */
module Prompts {
  import opened Basics
  import opened Chunks
  import opened Text

  datatype Message = Message(role: string, content: string)

  const SYSTEM := "system"
  const USER := "user"
  const ASSISTANT := "assistant"

  // ----- Building the message list -----

  /** A chunk is untrusted only when its trust annotation says `trusted: false`. */
  predicate Trusted(c: Chunk) {
    var trust := Annotation(c, SECURITY_TRUST_LEVEL);
    !(trust.Object? && "trusted" in trust.fields && trust.fields["trusted"] == Bool(false))
  }

  predicate Speaks(c: Chunk) {
    c.contentType.Text? && Trusted(c) && (Role(c) == Some(USER) || Role(c) == Some(ASSISTANT))
  }

  function Said(c: Chunk): Message
    requires Speaks(c)
  {
    Message(Role(c).value, if c.content.Some? then c.content.value else "")
  }

  /** The trusted user and assistant texts of a history, in order. */
  function Spoken(history: seq<Chunk>): seq<Message> {
    if history == [] then []
    else
      var c := history[|history| - 1];
      if Speaks(c) then Spoken(history[..|history| - 1]) + [Said(c)] else Spoken(history[..|history| - 1])
  }

  function Leading(systemPrompt: Option<string>): seq<Message> {
    if systemPrompt.Some? then [Message(SYSTEM, systemPrompt.value)] else []
  }

  predicate SameRole(run: seq<Message>) {
    forall i, j :: 0 <= i < j < |run| ==> run[i].role == run[j].role
  }

  predicate ChangesRole(runs: seq<seq<Message>>, i: nat)
    requires 0 < i < |runs|
  {
    runs[i - 1] != [] && runs[i] != [] && runs[i - 1][0].role != runs[i][0].role
  }

  /** `runs` cuts `xs` into maximal runs of one role. */
  predicate CutsIntoRuns(xs: seq<Message>, runs: seq<seq<Message>>) {
    && Flatten(runs) == xs
    && (forall i :: 0 <= i < |runs| ==> runs[i] != [] && SameRole(runs[i]))
    && (forall i :: 0 < i < |runs| ==> ChangesRole(runs, i))
  }

  function Contents(run: seq<Message>): (r: seq<string>)
    ensures |r| == |run| && forall i :: 0 <= i < |r| ==> r[i] == run[i].content
  {
    seq(|run|, i requires 0 <= i < |run| => run[i].content)
  }

  /** The contents of a run, separated by newlines. */
  function Joined(run: seq<Message>): string {
    Join(Contents(run), "\n")
  }

  function Merged(run: seq<Message>): Message
    requires run != []
  {
    Message(run[0].role, Joined(run))
  }

  function MergedRuns(runs: seq<seq<Message>>): (r: seq<Message>)
    requires forall i :: 0 <= i < |runs| ==> runs[i] != []
    ensures |r| == |runs| && forall i :: 0 <= i < |r| ==> r[i] == Merged(runs[i])
  {
    seq(|runs|, i requires 0 <= i < |runs| => Merged(runs[i]))
  }

  /** One more message of the last run's role joins that run. */
  function LastRunGrown(runs: seq<seq<Message>>, x: Message): seq<seq<Message>>
    requires runs != []
  {
    runs[..|runs| - 1] + [runs[|runs| - 1] + [x]]
  }

  lemma GrownRunsCut(xs: seq<Message>, runs: seq<seq<Message>>, x: Message)
    requires CutsIntoRuns(xs, runs) && runs != [] && runs[|runs| - 1][0].role == x.role
    ensures CutsIntoRuns(xs + [x], LastRunGrown(runs, x))
  {
    var front, last := runs[..|runs| - 1], runs[|runs| - 1];
    var more := LastRunGrown(runs, x);
    LongerRun(last, x);
    FlattenAppend(front, last + [x]);
    Associative(Flatten(front), last, [x]);
    forall i | 0 < i < |more| ensures ChangesRole(more, i) {
      assert ChangesRole(runs, i);
    }
  }

  lemma GrownRunsMerge(runs: seq<seq<Message>>, x: Message)
    requires (forall i :: 0 <= i < |runs| ==> runs[i] != [] && SameRole(runs[i]))
    requires runs != [] && runs[|runs| - 1][0].role == x.role
    ensures var more := LastRunGrown(runs, x);
            && |more| == |runs| && (forall i :: 0 <= i < |more| ==> more[i] != [])
            && MergedRuns(more) == MergedRuns(runs)[..|runs| - 1]
                                   + [Message(x.role, Joined(runs[|runs| - 1]) + "\n" + x.content)]
  {
    LongerRun(runs[|runs| - 1], x);
  }

  lemma LongerRun(run: seq<Message>, x: Message)
    requires run != [] && SameRole(run) && run[0].role == x.role
    ensures SameRole(run + [x]) && Merged(run + [x]) == Message(x.role, Joined(run) + "\n" + x.content)
  {
    assert Contents(run + [x]) == Contents(run) + [x.content];
    JoinAppend(Contents(run), x.content, "\n");
    forall i, j | 0 <= i < j < |run + [x]| ensures (run + [x])[i].role == (run + [x])[j].role {
      assert i > 0 ==> run[0].role == run[i].role;
    }
  }

  /** One message of another role starts a run. */
  lemma StartRun(xs: seq<Message>, runs: seq<seq<Message>>, x: Message)
    requires CutsIntoRuns(xs, runs) && (runs != [] ==> runs[|runs| - 1][0].role != x.role)
    ensures CutsIntoRuns(xs + [x], runs + [[x]])
    ensures MergedRuns(runs + [[x]]) == MergedRuns(runs) + [x]
  {
    FlattenAppend(runs, [x]);
    var more := runs + [[x]];
    forall i | 0 < i < |more| ensures ChangesRole(more, i) {
      assert i < |runs| ==> ChangesRole(runs, i);
    }
  }

  lemma SpokenAppend(history: seq<Chunk>, k: nat)
    requires k < |history|
    ensures Spoken(history[..k + 1])
         == if Speaks(history[k]) then Spoken(history[..k]) + [Said(history[k])] else Spoken(history[..k])
  {
    assert history[..k + 1][..k] == history[..k];
  }

  /** What the loop keeps in its list: one message per run so far. */
  function Coalesced(xs: seq<Message>): seq<Message> {
    if xs == [] then [] else Appended(Coalesced(xs[..|xs| - 1]), xs[|xs| - 1])
  }

  function Appended(messages: seq<Message>, x: Message): seq<Message> {
    if messages != [] && messages[|messages| - 1].role == x.role
    then messages[..|messages| - 1] + [Message(x.role, messages[|messages| - 1].content + "\n" + x.content)]
    else messages + [x]
  }

  /** A user or assistant message never joins the system prompt. */
  lemma AppendedAfterLeading(systemPrompt: Option<string>, messages: seq<Message>, x: Message)
    requires x.role != SYSTEM
    ensures Appended(Leading(systemPrompt) + messages, x) == Leading(systemPrompt) + Appended(messages, x)
  {
    var lead := Leading(systemPrompt);
    if messages == [] {
      assert lead + messages == lead;
    } else {
      assert (lead + messages)[..|lead + messages| - 1] == lead + messages[..|messages| - 1];
    }
  }

  /** The maximal runs behind the coalesced messages. */
  lemma {:induction false} CoalescedByRuns(xs: seq<Message>) returns (runs: seq<seq<Message>>)
    ensures CutsIntoRuns(xs, runs) && Coalesced(xs) == MergedRuns(runs)
  {
    runs := [];
    if xs != [] {
      var front, x := xs[..|xs| - 1], xs[|xs| - 1];
      assert xs == front + [x];
      var before: seq<seq<Message>> := CoalescedByRuns(front);
      if before != [] && before[|before| - 1][0].role == x.role {
        runs := LastRunGrown(before, x);
        GrownRunsCut(front, before, x);
        GrownRunsMerge(before, x);
      } else {
        runs := before + [[x]];
        StartRun(front, before, x);
      }
    }
  }

  method Append(messages: seq<Message>, said: Message) returns (r: seq<Message>)
    ensures r == Appended(messages, said)
  {
    if messages != [] && messages[|messages| - 1].role == said.role {
      var last := messages[|messages| - 1];
      r := messages[..|messages| - 1] + [Message(last.role, last.content + "\n" + said.content)];
    } else {
      r := messages + [said];
    }
  }

  /** The messages are the system prompt, if any, then the coalesced texts of the history. */
  method BuildMessages(history: seq<Chunk>, systemPrompt: Option<string>) returns (messages: seq<Message>)
    ensures messages == Leading(systemPrompt) + Coalesced(Spoken(history))
  {
    messages := [];
    if systemPrompt.Some? {
      messages := messages + [Message(SYSTEM, systemPrompt.value)];
    }
    assert history[..0] == [] && Leading(systemPrompt) + [] == messages;
    for k := 0 to |history|
      invariant messages == Leading(systemPrompt) + Coalesced(Spoken(history[..k]))
    {
      var c := history[k];
      ghost var spoken := Spoken(history[..k]);
      SpokenAppend(history, k);
      if c.contentType != Text || !Trusted(c) {
        continue;
      }
      if Role(c) == Some(USER) || Role(c) == Some(ASSISTANT) {
        var said := Said(c);
        AppendedAfterLeading(systemPrompt, Coalesced(spoken), said);
        CoalescedAppend(spoken, said);
        messages := Append(messages, said);
      }
    }
    assert history[..|history|] == history;
  }

  lemma CoalescedAppend(xs: seq<Message>, x: Message)
    ensures Coalesced(xs + [x]) == Appended(Coalesced(xs), x)
  {
    assert (xs + [x])[..|xs|] == xs;
  }

  /** The cut into maximal runs is unique, so the coalesced messages are. */
  lemma {:induction false} RunsAreUnique(xs: seq<Message>, a: seq<seq<Message>>, b: seq<seq<Message>>)
    requires CutsIntoRuns(xs, a) && CutsIntoRuns(xs, b)
    ensures a == b
    decreases |xs|
  {
    NoRunsOfNothing(xs, a);
    NoRunsOfNothing(xs, b);
    if xs != [] {
      var la, lb := a[|a| - 1], b[|b| - 1];
      var fa, fb := a[..|a| - 1], b[..|b| - 1];
      LastRunIsNoLonger(xs, a, b);
      LastRunIsNoLonger(xs, b, a);
      assert xs[..|xs| - |la|] == Flatten(fa) && xs[..|xs| - |lb|] == Flatten(fb);
      assert la == xs[|xs| - |la|..] && lb == xs[|xs| - |lb|..];
      FewerRuns(xs, a);
      FewerRuns(xs, b);
      RunsAreUnique(Flatten(fa), fa, fb);
      assert a == fa + [la] && b == fb + [lb];
    }
  }

  lemma NoRunsOfNothing(xs: seq<Message>, runs: seq<seq<Message>>)
    requires CutsIntoRuns(xs, runs)
    ensures xs == [] <==> runs == []
  {
  }

  lemma FewerRuns(xs: seq<Message>, runs: seq<seq<Message>>)
    requires CutsIntoRuns(xs, runs) && runs != []
    ensures CutsIntoRuns(Flatten(runs[..|runs| - 1]), runs[..|runs| - 1])
  {
    var front := runs[..|runs| - 1];
    forall i | 0 < i < |front| ensures ChangesRole(front, i) {
      assert ChangesRole(runs, i);
    }
  }

  /** The last run is the end of the list, and what comes before it has another role. */
  lemma BeforeLastRun(xs: seq<Message>, runs: seq<seq<Message>>)
    requires CutsIntoRuns(xs, runs) && runs != []
    ensures var last := runs[|runs| - 1];
            var n := |xs| - |last|;
            n >= 0 && xs[n..] == last && (n > 0 ==> xs[n - 1].role != xs[n].role)
            && forall i :: n <= i < |xs| ==> xs[i].role == xs[n].role
  {
    var front, last := runs[..|runs| - 1], runs[|runs| - 1];
    assert xs == Flatten(front) + last;
    assert forall i :: 0 < i < |last| ==> last[0].role == last[i].role;
    if front != [] {
      var before := front[|front| - 1];
      assert before == runs[|runs| - 2] && ChangesRole(runs, |runs| - 1);
      assert Flatten(front)[|Flatten(front)| - 1] == before[|before| - 1];
      assert |before| > 1 ==> before[0].role == before[|before| - 1].role;
    }
  }

  lemma LastRunIsNoLonger(xs: seq<Message>, a: seq<seq<Message>>, b: seq<seq<Message>>)
    requires CutsIntoRuns(xs, a) && CutsIntoRuns(xs, b) && a != [] && b != []
    ensures |b[|b| - 1]| <= |a[|a| - 1]|
  {
    BeforeLastRun(xs, a);
    BeforeLastRun(xs, b);
  }

  /** User and assistant take turns. */
  predicate Alternating(messages: seq<Message>) {
    && (forall i :: 0 <= i < |messages| ==> messages[i].role == USER || messages[i].role == ASSISTANT)
    && (forall i, j :: 0 <= i && j == i + 1 < |messages| ==> messages[i].role != messages[j].role)
  }

  lemma {:induction false} SpokenRoles(history: seq<Chunk>)
    ensures forall i :: 0 <= i < |Spoken(history)| ==> Spoken(history)[i].role == USER || Spoken(history)[i].role == ASSISTANT
  {
    if history != [] {
      SpokenRoles(history[..|history| - 1]);
    }
  }

  lemma {:induction false} CoalescedAlternates(xs: seq<Message>)
    requires forall i :: 0 <= i < |xs| ==> xs[i].role == USER || xs[i].role == ASSISTANT
    ensures Alternating(Coalesced(xs)) && (xs != [] ==> Coalesced(xs) != [])
  {
    if xs != [] {
      CoalescedAlternates(xs[..|xs| - 1]);
    }
  }

  // ----- Compaction -----

  datatype Budgets = Budgets(mode: Option<string>, maxMessages: Option<nat>, maxChars: Option<nat>)

  datatype Compaction = Compaction(out: seq<Message>, droppedMessages: nat, droppedChars: nat, dropped: seq<Message>)

  /** A budget of zero counts as no budget. */
  function Limit(budget: Option<nat>): Option<nat> {
    if budget.Some? && budget.value >= 1 then budget else None
  }

  predicate Compacting(cfg: Budgets) {
    && (cfg.mode == Some("truncate") || cfg.mode == Some("summarize"))
    && (Limit(cfg.maxMessages).Some? || Limit(cfg.maxChars).Some?)
  }

  function Chars(messages: seq<Message>): nat {
    if messages == [] then 0 else |messages[0].content| + Chars(messages[1..])
  }

  predicate Within(n: nat, limit: Option<nat>) {
    limit.Some? ==> n <= limit.value
  }

  /** Meets both budgets. */
  predicate Fits(window: seq<Message>, cfg: Budgets) {
    Within(|window|, Limit(cfg.maxMessages)) && Within(Chars(window), Limit(cfg.maxChars))
  }

  predicate HasSystem(messages: seq<Message>) {
    messages != [] && messages[0].role == SYSTEM
  }

  function SystemOf(messages: seq<Message>): seq<Message> {
    if HasSystem(messages) then messages[..1] else []
  }

  function RestOf(messages: seq<Message>): seq<Message> {
    if HasSystem(messages) then messages[1..] else messages
  }

  /** `start` begins the longest suffix of `rest` that fits, or is its newest message. */
  predicate IsLongestSuffix(rest: seq<Message>, start: nat, cfg: Budgets) {
    && start <= |rest| && (rest != [] ==> start < |rest|)
    && (Fits(rest[start..], cfg) || |rest| - start <= 1)
    && (forall s :: 0 <= s < start ==> !Fits(rest[s..], cfg))
  }

  /** Which compaction a result must be, outright. */
  predicate IsCompaction(messages: seq<Message>, cfg: Budgets, r: Compaction) {
    var rest := RestOf(messages);
    var start := |r.dropped|;
    && start <= |rest| && r.out == SystemOf(messages) + rest[start..] && r.dropped == rest[..start]
    && r.droppedMessages == start && r.droppedChars == Chars(r.dropped)
    && (if Compacting(cfg) then IsLongestSuffix(rest, start, cfg) else start == 0)
  }

  method ApplyCompaction(messages: seq<Message>, cfg: Budgets) returns (r: Compaction)
    ensures IsCompaction(messages, cfg, r)
  {
    if cfg.mode != Some("truncate") && cfg.mode != Some("summarize") {
      assert SystemOf(messages) + RestOf(messages) == messages;
      return Compaction(messages, 0, 0, []);
    }
    var maxMessages, maxChars := Limit(cfg.maxMessages), Limit(cfg.maxChars);
    if maxMessages.None? && maxChars.None? {
      assert SystemOf(messages) + RestOf(messages) == messages;
      return Compaction(messages, 0, 0, []);
    }
    var system, rest := SystemOf(messages), RestOf(messages);
    if rest == [] {
      return Compaction(system + rest, 0, 0, []);
    }
    var start := 0;
    while start < |rest|
      invariant start < |rest|
      invariant forall s :: 0 <= s < start ==> !Fits(rest[s..], cfg)
    {
      var window := rest[start..];
      var countOk := maxMessages.Some? ==> |window| <= maxMessages.value;
      var charsOk := maxChars.Some? ==> Chars(window) <= maxChars.value;
      if (countOk && charsOk) || |window| <= 1 {
        break;
      }
      start := start + 1;
    }
    r := Compaction(system + rest[start..], start, Chars(rest[..start]), rest[..start]);
  }

  lemma {:induction false} CharsSplit(messages: seq<Message>, k: nat)
    requires k <= |messages|
    ensures Chars(messages) == Chars(messages[..k]) + Chars(messages[k..])
  {
    if k == 0 {
      assert messages[..0] == [] && messages[0..] == messages;
    } else {
      CharsSplit(messages[1..], k - 1);
      assert messages[..k][0] == messages[0] && messages[..k][1..] == messages[1..][..k - 1];
      assert messages[k..] == messages[1..][k - 1..];
    }
  }

  /** What fits still fits when its oldest messages go. */
  lemma ShorterFits(window: seq<Message>, k: nat, cfg: Budgets)
    requires Fits(window, cfg) && k <= |window|
    ensures Fits(window[k..], cfg)
  {
    CharsSplit(window, k);
  }

  /** There is one compaction: the longest suffix is unique. */
  lemma CompactionIsUnique(messages: seq<Message>, cfg: Budgets, r: Compaction, r': Compaction)
    requires IsCompaction(messages, cfg, r) && IsCompaction(messages, cfg, r')
    ensures r == r'
  {
    NoLaterStart(RestOf(messages), |r.dropped|, |r'.dropped|, cfg, cfg, Compacting(cfg));
    NoLaterStart(RestOf(messages), |r'.dropped|, |r.dropped|, cfg, cfg, Compacting(cfg));
  }

  /** Messages and characters are conserved: dropped and kept make up the input. */
  lemma CompactionConserves(messages: seq<Message>, cfg: Budgets, r: Compaction)
    requires IsCompaction(messages, cfg, r)
    ensures messages == SystemOf(messages) + r.dropped + r.out[|SystemOf(messages)|..]
    ensures |messages| == r.droppedMessages + |r.out|
    ensures Chars(messages) == r.droppedChars + Chars(r.out)
  {
    var rest, system, k := RestOf(messages), SystemOf(messages), |r.dropped|;
    assert rest == r.dropped + rest[k..];
    assert messages == system + rest;
    CharsConcat(system, rest);
    CharsConcat(r.dropped, rest[k..]);
    CharsConcat(system, rest[k..]);
    Associative(system, r.dropped, rest[k..]);
  }

  lemma CharsConcat(xs: seq<Message>, ys: seq<Message>)
    ensures Chars(xs + ys) == Chars(xs) + Chars(ys)
  {
    CharsSplit(xs + ys, |xs|);
    assert (xs + ys)[..|xs|] == xs && (xs + ys)[|xs|..] == ys;
  }

  /** The newest message survives. */
  lemma NewestSurvives(messages: seq<Message>, cfg: Budgets, r: Compaction)
    requires IsCompaction(messages, cfg, r) && messages != []
    ensures r.out != [] && r.out[|r.out| - 1] == messages[|messages| - 1]
  {
    var rest, system := RestOf(messages), SystemOf(messages);
    assert messages == system + rest;
    if rest == [] {
      assert r.out == messages;
    } else {
      assert r.out[|r.out| - 1] == rest[|rest| - 1];
    }
  }

  /** Compacting again changes nothing. */
  lemma CompactionIsIdempotent(messages: seq<Message>, cfg: Budgets, r: Compaction, again: Compaction)
    requires IsCompaction(messages, cfg, r) && IsCompaction(r.out, cfg, again)
    ensures again == Compaction(r.out, 0, 0, [])
  {
    var window, kept := RestOf(messages)[|r.dropped|..], RestOf(r.out);
    KeptIsSuffix(messages, cfg, r);
    if Compacting(cfg) {
      if Fits(window, cfg) {
        ShorterFits(window, |window| - |kept|, cfg);
      }
      NothingToDrop(kept, |again.dropped|, cfg);
    }
    assert SystemOf(r.out) + kept[0..] == r.out;
  }

  lemma NothingToDrop(kept: seq<Message>, start: nat, cfg: Budgets)
    requires IsLongestSuffix(kept, start, cfg) && (Fits(kept, cfg) || |kept| <= 1)
    ensures start == 0
  {
    assert kept[0..] == kept;
  }

  lemma KeptIsSuffix(messages: seq<Message>, cfg: Budgets, r: Compaction)
    requires IsCompaction(messages, cfg, r)
    ensures var window, kept := RestOf(messages)[|r.dropped|..], RestOf(r.out);
            |kept| <= |window| && kept == window[|window| - |kept|..]
  {
  }

  /** `b` allows whatever `a` allows. */
  predicate NoTighter(a: Option<nat>, b: Option<nat>) {
    b.Some? ==> a.Some? && a.value <= b.value
  }

  lemma NoLaterStart(rest: seq<Message>, tight: nat, loose: nat, cfg: Budgets, cfg': Budgets, compacting: bool)
    requires compacting ==> IsLongestSuffix(rest, tight, cfg) && IsLongestSuffix(rest, loose, cfg')
    requires !compacting ==> loose == 0
    requires NoTighter(Limit(cfg.maxMessages), Limit(cfg'.maxMessages)) && NoTighter(Limit(cfg.maxChars), Limit(cfg'.maxChars))
    ensures loose <= tight
  {
    if compacting && tight < loose {
      assert false;
    }
  }

  /** Larger budgets never keep less; no budget, that is none or zero, is the largest. */
  lemma LargerBudgetsKeepMore(messages: seq<Message>, cfg: Budgets, cfg': Budgets, r: Compaction, r': Compaction)
    requires IsCompaction(messages, cfg, r) && IsCompaction(messages, cfg', r') && cfg.mode == cfg'.mode
    requires NoTighter(Limit(cfg.maxMessages), Limit(cfg'.maxMessages)) && NoTighter(Limit(cfg.maxChars), Limit(cfg'.maxChars))
    ensures r'.dropped <= r.dropped && |r.out| <= |r'.out|
  {
    NoLaterStart(RestOf(messages), |r.dropped|, |r'.dropped|, cfg, cfg', Compacting(cfg'));
  }

  /** Two pairs of plain numbers as budgets: whatever `cfg'` is given, it keeps no less than `cfg`. */
  ghost predicate KeepsNoLess(cfg: Budgets, cfg': Budgets) {
    forall messages, r, r' :: IsCompaction(messages, cfg, r) && IsCompaction(messages, cfg', r') ==> |r.out| <= |r'.out|
  }

  function Plain(mode: string, maxMessages: nat, maxChars: nat): Budgets {
    Budgets(Some(mode), Some(maxMessages), Some(maxChars))
  }

  /**
   * Of plain numbers larger budgets keep no less for every input exactly when no budget is
   * raised from zero; but from zero characters is harmless when one message is kept anyway.
   */
  lemma RawBudgetsKeepMore(mode: string, m: nat, m': nat, c: nat, c': nat)
    requires m <= m' && c <= c' && (mode == "truncate" || mode == "summarize")
    ensures KeepsNoLess(Plain(mode, m, c), Plain(mode, m', c'))
       <==> (m > 0 || m' == 0) && (c > 0 || c' == 0 || m == 1)
  {
    var cfg, cfg' := Plain(mode, m, c), Plain(mode, m', c');
    if m == 0 < m' {
      ManyKeepsLess(mode, m', c, c');
    } else if c == 0 < c' && m != 1 {
      LongKeepsLess(mode, m, m', c');
    } else {
      forall messages, r, r' | IsCompaction(messages, cfg, r) && IsCompaction(messages, cfg', r')
        ensures |r.out| <= |r'.out|
      {
        if c > 0 || c' == 0 {
          LargerBudgetsKeepMore(messages, cfg, cfg', r, r');
        } else {
          OneIsLeast(messages, cfg, cfg', r, r');
        }
      }
    }
  }

  /** A budget of one message keeps the newest, and so does every other. */
  lemma OneIsLeast(messages: seq<Message>, cfg: Budgets, cfg': Budgets, r: Compaction, r': Compaction)
    requires IsCompaction(messages, cfg, r) && IsCompaction(messages, cfg', r')
    requires Compacting(cfg) && cfg.maxMessages == Some(1)
    ensures |r.out| <= |r'.out|
  {
    assert |RestOf(messages)[|r.dropped|..]| <= 1;
  }

  /** More empty messages than the new budget: none was dropped, now one is. */
  lemma ManyKeepsLess(mode: string, m': nat, c: nat, c': nat)
    requires m' > 0 && c <= c' && (mode == "truncate" || mode == "summarize")
    ensures !KeepsNoLess(Plain(mode, 0, c), Plain(mode, m', c'))
  {
    var messages := seq(m' + 1, i => Message(USER, ""));
    NoChars(messages);
    DropsNone(messages, Plain(mode, 0, c));
    DropsOne(messages, Plain(mode, m', c'));
  }

  /** Two messages each over the new budget: both were kept, now one is. */
  lemma LongKeepsLess(mode: string, m: nat, m': nat, c': nat)
    requires m <= m' && m != 1 && (m > 0 || m' == 0) && c' > 0 && (mode == "truncate" || mode == "summarize")
    ensures !KeepsNoLess(Plain(mode, m, 0), Plain(mode, m', c'))
  {
    var long := Message(USER, seq(c' + 1, i => 'x'));
    var messages := [long, long];
    assert |long.content| == c' + 1;
    assert messages[0] == long && Chars(messages) == |long.content| + Chars(messages[1..]);
    assert |messages| > 1 && |messages[1..]| == 1;
    DropsNone(messages, Plain(mode, m, 0));
    DropsOne(messages, Plain(mode, m', c'));
  }

  lemma {:induction false} NoChars(messages: seq<Message>)
    requires forall i :: 0 <= i < |messages| ==> messages[i] == Message(USER, "")
    ensures Chars(messages) == 0
  {
    if messages != [] {
      NoChars(messages[1..]);
    }
  }

  lemma DropsNone(messages: seq<Message>, cfg: Budgets)
    requires !HasSystem(messages) && messages != [] && (Compacting(cfg) ==> Fits(messages, cfg))
    ensures IsCompaction(messages, cfg, Compaction(messages, 0, 0, []))
  {
    assert messages[0..] == messages && messages[..0] == [] && [] + messages == messages;
  }

  lemma DropsOne(messages: seq<Message>, cfg: Budgets)
    requires !HasSystem(messages) && |messages| >= 2 && Compacting(cfg)
    requires !Fits(messages, cfg) && (Fits(messages[1..], cfg) || |messages| == 2)
    ensures IsCompaction(messages, cfg, Compaction(messages[1..], 1, Chars(messages[..1]), messages[..1]))
  {
    assert messages[0..] == messages && [] + messages[1..] == messages[1..];
  }

  // ----- The final prompt -----

  const SUMMARY_HEADING := "Prior conversation summary (compacted):\n"

  method InsertSummary(messages: seq<Message>, summary: string) returns (out: seq<Message>)
    ensures out == SystemOf(messages) + [Message(SYSTEM, SUMMARY_HEADING + summary)] + RestOf(messages)
  {
    var note := Message(SYSTEM, SUMMARY_HEADING + summary);
    var pos := if messages != [] && messages[0].role == SYSTEM then 1 else 0;
    out := messages[..pos] + [note] + messages[pos..];
  }

  /** `reply` is the backend's summary, trimmed; None is a failed call. */
  method SummarizePrefix(messages: seq<Message>, dropped: seq<Message>, reply: Option<string>) returns (out: seq<Message>)
    ensures out == if dropped == [] || reply.None? || reply.value == "" then messages
                   else SystemOf(messages) + [Message(SYSTEM, SUMMARY_HEADING + reply.value)] + RestOf(messages)
  {
    if dropped == [] || reply.None? {
      return messages;
    }
    if reply.value == "" {
      return messages;
    }
    out := InsertSummary(messages, reply.value);
  }

  /** At most two system messages, then user and assistant taking turns. */
  predicate WellShaped(prompt: seq<Message>, systems: nat) {
    && systems <= 2 && systems <= |prompt|
    && (forall i :: 0 <= i < systems ==> prompt[i].role == SYSTEM)
    && Alternating(prompt[systems..])
  }

  /** After `systems` system messages comes `talk` from `start` on, with at least its last message. */
  predicate EndsInTalk(prompt: seq<Message>, systems: nat, talk: seq<Message>, start: nat) {
    WellShaped(prompt, systems) && start <= |talk| && (talk != [] ==> start < |talk|) && prompt[systems..] == talk[start..]
  }

  /**
   * What is sent to the backend for an invoke. Whatever the history, the budgets and the
   * summary, it is well-shaped, and it ends with the coalesced texts from some point on,
   * the newest always among them.
   */
  method PromptFor(history: seq<Chunk>, systemPrompt: Option<string>, cfg: Budgets, reply: Option<string>)
    returns (prompt: seq<Message>)
    ensures exists systems: nat, start: nat :: EndsInTalk(prompt, systems, Coalesced(Spoken(history)), start)
  {
    var messages := BuildMessages(history, systemPrompt);
    var compaction := ApplyCompaction(messages, cfg);
    KeptTalk(history, systemPrompt, cfg, compaction);
    ghost var start := |compaction.dropped|;
    ghost var kept := Coalesced(Spoken(history))[start..];
    ghost var heads := Leading(systemPrompt);
    prompt := compaction.out;
    if compaction.droppedMessages > 0 && cfg.mode == Some("summarize") {
      LeadingIsSystem(systemPrompt, kept);
      prompt := SummarizePrefix(prompt, compaction.dropped, reply);
      heads := prompt[..|prompt| - |kept|];
    }
    HeadsThenTalk(heads, kept, prompt);
    assert EndsInTalk(prompt, |heads|, Coalesced(Spoken(history)), start);
  }

  lemma HeadsThenTalk(heads: seq<Message>, talk: seq<Message>, prompt: seq<Message>)
    requires |heads| <= 2 && (forall i :: 0 <= i < |heads| ==> heads[i].role == SYSTEM) && Alternating(talk)
    requires prompt == heads + talk
    ensures WellShaped(prompt, |heads|) && prompt[|heads|..] == talk
  {
  }

  /** What compaction keeps of the coalesced texts. */
  lemma KeptTalk(history: seq<Chunk>, systemPrompt: Option<string>, cfg: Budgets, r: Compaction)
    requires IsCompaction(Leading(systemPrompt) + Coalesced(Spoken(history)), cfg, r)
    ensures var spoken, start := Coalesced(Spoken(history)), |r.dropped|;
            && start <= |spoken| && (spoken != [] ==> start < |spoken|)
            && r.out == Leading(systemPrompt) + spoken[start..] && Alternating(spoken[start..])
  {
    SpokenRoles(history);
    CoalescedAlternates(Spoken(history));
    LeadingIsSystem(systemPrompt, Coalesced(Spoken(history)));
    SuffixAlternates(Coalesced(Spoken(history)), |r.dropped|);
  }

  lemma SuffixAlternates(talk: seq<Message>, start: nat)
    requires Alternating(talk) && start <= |talk|
    ensures Alternating(talk[start..])
  {
    forall i, j | 0 <= i && j == i + 1 < |talk| - start ensures talk[start..][i].role != talk[start..][j].role {
      assert talk[start..][i] == talk[start + i] && talk[start..][j] == talk[start + j];
    }
  }

  lemma LeadingIsSystem(systemPrompt: Option<string>, talk: seq<Message>)
    requires Alternating(talk)
    ensures SystemOf(Leading(systemPrompt) + talk) == Leading(systemPrompt)
    ensures RestOf(Leading(systemPrompt) + talk) == talk
  {
    var messages := Leading(systemPrompt) + talk;
    if systemPrompt.None? {
      assert messages == talk;
    } else {
      assert messages[..1] == Leading(systemPrompt) && messages[1..] == talk;
    }
  }

  // ----- Reading the configuration back -----

  const CONFIG_TYPE := "config.type"

  predicate IsRuntimeConfig(c: Chunk) {
    c.contentType.NullContent? && TextAnnotation(c, CONFIG_TYPE) == Some("runtime")
  }

  predicate Sets(c: Chunk, key: string) {
    IsRuntimeConfig(c) && key in c.annotations
  }

  /**
   * One text field of the configuration, with its canonical key and its legacy key: the
   * loop over the history of `extract_config`, for one field.
   */
  method ExtractField(history: seq<Chunk>, key: string, legacy: string) returns (field: Option<string>)
    ensures field == FieldOf(history, key, legacy)
  {
    field := None;
    for k := 0 to |history|
      invariant field == FieldOf(history[..k], key, legacy)
    {
      var c := history[k];
      assert history[..k + 1][..k] == history[..k];
      if c.contentType != NullContent || TextAnnotation(c, CONFIG_TYPE) != Some("runtime") {
        continue;
      }
      if key in c.annotations {
        field := TextAnnotation(c, key);
      }
      if field.None? && legacy in c.annotations {
        field := TextAnnotation(c, legacy);
      }
    }
    assert history[..|history|] == history;
  }

  function FieldOf(history: seq<Chunk>, key: string, legacy: string): Option<string> {
    if history == [] then None
    else
      var before, c := FieldOf(history[..|history| - 1], key, legacy), history[|history| - 1];
      var field := if Sets(c, key) then TextAnnotation(c, key) else before;
      if field.None? && Sets(c, legacy) then TextAnnotation(c, legacy) else field
  }

  /** `i` is the last chunk that sets the canonical key, or nothing does and `i` is 0. */
  predicate LastCanonical(history: seq<Chunk>, key: string, i: nat) {
    && i <= |history|
    && (forall k :: i < k < |history| ==> !Sets(history[k], key))
    && ((i < |history| && Sets(history[i], key)) || i == 0)
  }

  predicate LegacyText(c: Chunk, legacy: string) {
    Sets(c, legacy) && TextAnnotation(c, legacy).Some?
  }

  /** The last canonical value wins, when it is a text. */
  lemma {:induction false} CanonicalWins(history: seq<Chunk>, key: string, legacy: string, i: nat)
    requires LastCanonical(history, key, i) && i < |history| && Sets(history[i], key)
    requires TextAnnotation(history[i], key).Some?
    ensures FieldOf(history, key, legacy) == TextAnnotation(history[i], key)
  {
    if i < |history| - 1 {
      CanonicalWins(history[..|history| - 1], key, legacy, i);
    }
  }

  /**
   * Otherwise, against the promise that later chunks win, the FIRST legacy text from there
   * on stays: a later legacy value never replaces it.
   */
  lemma {:induction false} FirstLegacyStays(history: seq<Chunk>, key: string, legacy: string, i: nat, j: nat)
    requires LastCanonical(history, key, i) && (i < |history| && Sets(history[i], key) ==> TextAnnotation(history[i], key).None?)
    requires i <= j < |history| && LegacyText(history[j], legacy)
    requires forall k :: i <= k < j ==> !LegacyText(history[k], legacy)
    ensures FieldOf(history, key, legacy) == TextAnnotation(history[j], legacy)
  {
    var front := history[..|history| - 1];
    if j < |history| - 1 {
      FirstLegacyStays(front, key, legacy, i, j);
    } else if i < j {
      NoText(front, key, legacy, i);
    }
  }

  /** With neither there is no value. */
  lemma {:induction false} NoText(history: seq<Chunk>, key: string, legacy: string, i: nat)
    requires LastCanonical(history, key, i) && (i < |history| && Sets(history[i], key) ==> TextAnnotation(history[i], key).None?)
    requires forall k :: i <= k < |history| ==> !LegacyText(history[k], legacy)
    ensures FieldOf(history, key, legacy).None?
  {
    if history != [] && i < |history| - 1 {
      NoText(history[..|history| - 1], key, legacy, i);
    }
  }

  /**
   * With no canonical text, the last legacy text wins exactly when it is the same as the
   * first: `j` and `l` are where these stand.
   */
  lemma LastLegacyWins(history: seq<Chunk>, key: string, legacy: string, i: nat, j: nat, l: nat)
    requires LastCanonical(history, key, i) && (i < |history| && Sets(history[i], key) ==> TextAnnotation(history[i], key).None?)
    requires i <= j <= l < |history| && LegacyText(history[j], legacy) && LegacyText(history[l], legacy)
    requires forall k :: i <= k < j || l < k < |history| ==> !LegacyText(history[k], legacy)
    ensures FieldOf(history, key, legacy) == TextAnnotation(history[l], legacy)
       <==> TextAnnotation(history[j], legacy) == TextAnnotation(history[l], legacy)
  {
    FirstLegacyStays(history, key, legacy, i, j);
  }

  const CONFIG_LLM_MODEL := "config.llm.model"
  const CONFIG_MODEL := "config.model"

  function RuntimeConfig(key: string, text: string): Chunk {
    Chunk("c", NullContent, None, "p", map[CONFIG_TYPE := Str("runtime"), key := Str(text)])
  }

  /** A model set twice under the legacy key: the second one has no effect. */
  lemma LaterLegacyIsIgnored()
    ensures FieldOf([RuntimeConfig(CONFIG_MODEL, "old"), RuntimeConfig(CONFIG_MODEL, "new")], CONFIG_LLM_MODEL, CONFIG_MODEL)
         == Some("old")
  {
    var history := [RuntimeConfig(CONFIG_MODEL, "old"), RuntimeConfig(CONFIG_MODEL, "new")];
    assert CONFIG_MODEL != CONFIG_TYPE && CONFIG_LLM_MODEL != CONFIG_TYPE && CONFIG_LLM_MODEL != CONFIG_MODEL;
    FirstLegacyStays(history, CONFIG_LLM_MODEL, CONFIG_MODEL, 0, 0);
  }
}
