/**
 * The pipeline executor's work queue. Running the steps an event triggers queues one
 * follow-up event per completed step; the loop serves the queue it grows until it is empty
 * or a remote call fails. The world outside (remote answers, the tool calls found in the
 * history) is a function of everything that ran before.
 */
module Executor {
  import opened Basics
  import opened Chunks
  import opened WorkQueue

  datatype TriggerType = UserMessage | LlmComplete | SchedulerTick | StepComplete(id: string)

  datatype StepDef = StepDef(id: string, stepType: string, trigger: string, enabledIf: Option<string>)

  datatype BuiltIn = RoleAnnotator | TrustFilter | ToolDetector | ToolExecutor | Mcp

  datatype StepType = BuiltInStep(evaluator: BuiltIn) | Rpc(namespace: string)

  datatype Config = Config(values: map<string, Value>, extra: map<string, Value>)

  datatype Context = Context(
    sessionId: string, config: Config, llmText: Option<string>, userText: Option<string>, depth: nat)

  /** One entry of the work queue. */
  datatype Item = Item(event: TriggerType, ctx: Context)

  /** One step run in one context. */
  datatype Visit = Visit(step: StepDef, ctx: Context)

  datatype Pipeline = Pipeline(steps: seq<StepDef>, maxDepth: nat)

  /**
   * What the last visit of a run so far meets: the error of a remote call, if any, and the
   * number of tool calls found in the history, if it can be read.
   */
  datatype World = World(rpcError: seq<Visit> -> Option<string>, toolCalls: seq<Visit> -> Option<nat>)

  function TypeOf(s: StepDef): StepType {
    if s.stepType == "role-annotator" then BuiltInStep(RoleAnnotator)
    else if s.stepType == "trust-filter" then BuiltInStep(TrustFilter)
    else if s.stepType == "tool-detector" then BuiltInStep(ToolDetector)
    else if s.stepType == "tool-executor" then BuiltInStep(ToolExecutor)
    else if s.stepType == "mcp" then BuiltInStep(Mcp)
    else Rpc(s.stepType)
  }

  predicate TriggerMatches(trigger: string, event: TriggerType) {
    match event
    case UserMessage => trigger == "user_message"
    case LlmComplete => trigger == "llm_complete"
    case SchedulerTick => trigger == "scheduler_tick"
    case StepComplete(id) => trigger == "step_complete:" + id || trigger == "step_complete"
  }

  predicate IsEnabled(s: StepDef, config: Config) {
    s.enabledIf.Some? ==>
      var key := s.enabledIf.value;
      if key in config.values then config.values[key] == Bool(true)
      else key in config.extra && config.extra[key] == Bool(true)
  }

  function Picks(item: Item): StepDef -> bool {
    (s: StepDef) => TriggerMatches(s.trigger, item.event) && IsEnabled(s, item.ctx.config)
  }

  function IsBuiltIn(): StepDef -> bool {
    (s: StepDef) => TypeOf(s).BuiltInStep?
  }

  function IsRpc(): StepDef -> bool {
    (s: StepDef) => TypeOf(s).Rpc?
  }

  /** A chain of completed steps ends at the depth limit. */
  predicate Skipped(p: Pipeline, item: Item) {
    item.event.StepComplete? && item.ctx.depth >= p.maxDepth
  }

  // ----- What a run is -----

  /** The steps an event runs: the built-in ones first, then the remote ones, each in order. */
  function Chosen(p: Pipeline, item: Item): seq<StepDef> {
    if Skipped(p, item) then []
    else
      var eligible := Filter(p.steps, Picks(item));
      Filter(eligible, IsBuiltIn()) + Filter(eligible, IsRpc())
  }

  function Visits(steps: seq<StepDef>, ctx: Context): (r: seq<Visit>)
    ensures |r| == |steps| && forall i :: 0 <= i < |r| ==> r[i] == Visit(steps[i], ctx)
  {
    seq(|steps|, i requires 0 <= i < |steps| => Visit(steps[i], ctx))
  }

  function Runs(p: Pipeline): Item -> seq<Visit> {
    (item: Item) => Visits(Chosen(p, item), item.ctx)
  }

  function FollowUp(v: Visit): Item {
    Item(StepComplete(v.step.id), v.ctx.(depth := v.ctx.depth + 1))
  }

  /** The last visit completes and queues its follow-up. */
  predicate Continues(trace: seq<Visit>, w: World)
    requires trace != []
  {
    match TypeOf(trace[|trace| - 1].step)
    case Rpc(_) => w.rpcError(trace).None?
    case BuiltInStep(e) => e.ToolExecutor? && w.toolCalls(trace).Some? && w.toolCalls(trace).value > 0
  }

  function Outcome(w: World): seq<Visit> -> Option<Item> {
    (trace: seq<Visit>) => if trace != [] && Continues(trace, w) then Some(FollowUp(trace[|trace| - 1])) else None
  }

  /** The follow-ups queued by a run, in the order of the visits that queued them. */
  function FollowUps(trace: seq<Visit>, w: World): seq<Item> {
    Queued(trace, Outcome(w))
  }

  predicate Fails(trace: seq<Visit>, w: World)
    requires trace != []
  {
    TypeOf(trace[|trace| - 1].step).Rpc? && w.rpcError(trace).Some?
  }

  ghost predicate NeverFails(trace: seq<Visit>, w: World) {
    forall i :: 0 < i <= |trace| ==> !Fails(trace[..i], w)
  }

  /** Nothing failed before the last visit, and that one did. */
  ghost predicate FailedAtLast(trace: seq<Visit>, failure: Option<string>, w: World) {
    trace != [] && Fails(trace, w) && w.rpcError(trace) == failure && NeverFails(trace[..|trace| - 1], w)
  }

  lemma NeverFailsAppend(trace: seq<Visit>, v: Visit, w: World)
    requires NeverFails(trace, w) && !Fails(trace + [v], w)
    ensures NeverFails(trace + [v], w)
  {
    forall i | 0 < i <= |trace| + 1 ensures !Fails((trace + [v])[..i], w) {
      assert (trace + [v])[..i] == if i <= |trace| then trace[..i] else trace + [v];
    }
  }

  lemma VisitsAppend(steps: seq<StepDef>, more: seq<StepDef>, ctx: Context)
    ensures Visits(steps + more, ctx) == Visits(steps, ctx) + Visits(more, ctx)
  {
  }

  // ----- Termination -----

  /** What a follow-up at depth `d` can still cost: 1 + n * w(d + 1). */
  function DepthWeight(n: nat, maxDepth: nat, d: nat): (w: nat)
    ensures w > 0
    decreases maxDepth - d
  {
    if d >= maxDepth then 1 else 1 + n * DepthWeight(n, maxDepth, d + 1)
  }

  function Weight(p: Pipeline): Item -> nat {
    (item: Item) =>
      if item.event.StepComplete? then DepthWeight(|p.steps|, p.maxDepth, item.ctx.depth)
      else 1 + |p.steps| * DepthWeight(|p.steps|, p.maxDepth, item.ctx.depth + 1)
  }

  /** Every one of `more` is a follow-up of a visit in `ctx`. */
  predicate Follow(more: seq<Item>, ctx: Context) {
    forall i :: 0 <= i < |more| ==> more[i].event.StepComplete? && more[i].ctx == ctx.(depth := ctx.depth + 1)
  }

  lemma {:induction false} FilterIsNoLonger<T>(xs: seq<T>, p: T -> bool)
    ensures |Filter(xs, p)| <= |xs|
  {
    if xs != [] {
      FilterIsNoLonger(xs[..|xs| - 1], p);
    }
  }

  lemma {:induction false} BuiltInOrRpc(steps: seq<StepDef>)
    ensures |Filter(steps, IsBuiltIn())| + |Filter(steps, IsRpc())| == |steps|
  {
    if steps != [] {
      BuiltInOrRpc(steps[..|steps| - 1]);
    }
  }

  lemma ChosenIsBounded(p: Pipeline, item: Item)
    ensures |Chosen(p, item)| <= |p.steps|
  {
    BuiltInOrRpc(Filter(p.steps, Picks(item)));
    FilterIsNoLonger(p.steps, Picks(item));
  }

  /** Serving one event makes the queue lighter, whatever it queues. */
  lemma ServingIsLighter(p: Pipeline, item: Item, rest: seq<Item>, more: seq<Item>)
    requires !Skipped(p, item) && |more| <= |p.steps| && Follow(more, item.ctx)
    ensures Total(Weight(p), rest + more) < Total(Weight(p), [item] + rest)
  {
    var w := DepthWeight(|p.steps|, p.maxDepth, item.ctx.depth + 1);
    TotalGrows(Weight(p), rest, more, w);
    Times(|more|, |p.steps|, w);
    assert ([item] + rest)[1..] == rest;
  }

  // ----- The loop -----

  /** Depths never fall along the queue, and span at most two adjacent values. */
  predicate Staircase(queue: seq<Item>) {
    forall i, j :: 0 <= i < j < |queue| ==>
      queue[i].ctx.depth <= queue[j].ctx.depth <= queue[i].ctx.depth + 1
  }

  /** Every queued context is the trigger's, but for the depth. */
  predicate SameButDepth(queue: seq<Item>, context: Context) {
    forall i :: 0 <= i < |queue| ==> queue[i].ctx == context.(depth := queue[i].ctx.depth)
  }

  predicate Ascending(items: seq<Item>) {
    forall i, j :: 0 <= i < j < |items| ==> items[i].ctx.depth <= items[j].ctx.depth
  }

  /** All that was ever queued is the trigger and the follow-ups; nothing has failed. */
  ghost predicate Accounted(root: Item, served: seq<Item>, queue: seq<Item>, trace: seq<Visit>, w: World) {
    served + queue == [root] + FollowUps(trace, w) && NeverFails(trace, w)
  }

  /** `queue` is `queue0` and at most `bound` follow-ups of visits in `ctx`. */
  predicate Grown(queue0: seq<Item>, queue: seq<Item>, ctx: Context, bound: nat) {
    queue0 <= queue && |queue| <= |queue0| + bound && Follow(queue[|queue0|..], ctx)
  }

  lemma GrownBy(queue0: seq<Item>, queue: seq<Item>, v: Visit, bound: nat)
    requires Grown(queue0, queue, v.ctx, bound)
    ensures Grown(queue0, queue + [FollowUp(v)], v.ctx, bound + 1)
  {
    assert (queue + [FollowUp(v)])[|queue0|..] == queue[|queue0|..] + [FollowUp(v)];
  }

  lemma BuiltInVisited(root: Item, served: seq<Item>, queue: seq<Item>, trace: seq<Visit>, v: Visit, w: World)
    requires Accounted(root, served, queue, trace, w) && TypeOf(v.step).BuiltInStep?
    ensures
      var calls := if TypeOf(v.step).evaluator == ToolExecutor then w.toolCalls(trace + [v]) else None;
      var queue' := if calls.Some? && calls.value > 0 then queue + [FollowUp(v)] else queue;
      Accounted(root, served, queue', trace + [v], w)
  {
    OneMoreVisit(root, served, queue, trace, v, w);
  }

  lemma RpcVisited(root: Item, served: seq<Item>, queue: seq<Item>, trace: seq<Visit>, v: Visit, w: World)
    requires Accounted(root, served, queue, trace, w) && TypeOf(v.step).Rpc?
    ensures w.rpcError(trace + [v]).None? ==> Accounted(root, served, queue + [FollowUp(v)], trace + [v], w)
    ensures w.rpcError(trace + [v]).Some? ==>
      FailedAtLast(trace + [v], w.rpcError(trace + [v]), w) && served + queue == [root] + FollowUps(trace + [v], w)
  {
    if w.rpcError(trace + [v]).None? {
      OneMoreVisit(root, served, queue, trace, v, w);
    } else {
      FailureIsLast(root, served, queue, trace, v, w);
    }
  }

  lemma OneMoreVisit(root: Item, served: seq<Item>, queue: seq<Item>, trace: seq<Visit>, v: Visit, w: World)
    requires Accounted(root, served, queue, trace, w) && !Fails(trace + [v], w)
    ensures Accounted(root, served, if Continues(trace + [v], w) then queue + [FollowUp(v)] else queue, trace + [v], w)
  {
    NeverFailsAppend(trace, v, w);
    QueuedAppend(trace, v, Outcome(w));
    assert served + (queue + [FollowUp(v)]) == (served + queue) + [FollowUp(v)];
  }

  lemma FailureIsLast(root: Item, served: seq<Item>, queue: seq<Item>, trace: seq<Visit>, v: Visit, w: World)
    requires Accounted(root, served, queue, trace, w) && Fails(trace + [v], w)
    ensures FailedAtLast(trace + [v], w.rpcError(trace + [v]), w)
    ensures served + queue == [root] + FollowUps(trace + [v], w)
  {
    QueuedAppend(trace, v, Outcome(w));
    assert (trace + [v])[..|trace + [v]| - 1] == trace;
  }

  /** The visits of the first `i` steps of one kind. */
  function Ran(eligible: seq<StepDef>, i: nat, kind: StepDef -> bool, ctx: Context): seq<Visit>
    requires i <= |eligible|
  {
    Visits(Filter(eligible[..i], kind), ctx)
  }

  lemma RanOneMore(eligible: seq<StepDef>, i: nat, kind: StepDef -> bool, ctx: Context)
    requires i < |eligible|
    ensures Ran(eligible, i + 1, kind, ctx)
         == if kind(eligible[i]) then Ran(eligible, i, kind, ctx) + [Visit(eligible[i], ctx)] else Ran(eligible, i, kind, ctx)
  {
    assert eligible[..i + 1] == eligible[..i] + [eligible[i]];
    FilterAppend(eligible[..i], eligible[i], kind);
  }

  lemma RanIsPrefix(eligible: seq<StepDef>, i: nat, kind: StepDef -> bool, ctx: Context)
    requires i <= |eligible|
    ensures Ran(eligible, i, kind, ctx) <= Visits(Filter(eligible, kind), ctx)
    ensures Ran(eligible, |eligible|, kind, ctx) == Visits(Filter(eligible, kind), ctx)
  {
    assert eligible == eligible[..i] + eligible[i..] && eligible[..|eligible|] == eligible;
    FilterConcat(eligible[..i], eligible[i..], kind);
    VisitsAppend(Filter(eligible[..i], kind), Filter(eligible[i..], kind), ctx);
  }

  /** The remote calls among the first `i` steps were made, and queued at most one follow-up each. */
  predicate Dispatched(eligible: seq<StepDef>, i: nat, ctx: Context, trace0: seq<Visit>, queue0: seq<Item>,
                       trace: seq<Visit>, queue: seq<Item>)
    requires i <= |eligible|
  {
    trace == trace0 + Ran(eligible, i, IsRpc(), ctx) && Grown(queue0, queue, ctx, |Ran(eligible, i, IsRpc(), ctx)|)
  }

  lemma RpcRan(eligible: seq<StepDef>, i: nat, ctx: Context, trace0: seq<Visit>, queue0: seq<Item>,
               trace: seq<Visit>, queue: seq<Item>)
    requires i < |eligible| && IsRpc()(eligible[i]) && Dispatched(eligible, i, ctx, trace0, queue0, trace, queue)
    ensures Dispatched(eligible, i + 1, ctx, trace0, queue0, trace + [Visit(eligible[i], ctx)],
                       queue + [FollowUp(Visit(eligible[i], ctx))])
    ensures trace0 < trace + [Visit(eligible[i], ctx)] <= trace0 + Visits(Filter(eligible, IsRpc()), ctx)
    ensures Grown(queue0, queue, ctx, |Filter(eligible, IsRpc())|)
  {
    RanOneMore(eligible, i, IsRpc(), ctx);
    GrownBy(queue0, queue, Visit(eligible[i], ctx), |Ran(eligible, i, IsRpc(), ctx)|);
    Associative(trace0, Ran(eligible, i, IsRpc(), ctx), [Visit(eligible[i], ctx)]);
    RanIsPrefix(eligible, i + 1, IsRpc(), ctx);
    PrefixUnder(trace0, Ran(eligible, i + 1, IsRpc(), ctx), Visits(Filter(eligible, IsRpc()), ctx));
  }

  lemma PrefixUnder<T>(a: seq<T>, b: seq<T>, c: seq<T>)
    requires b <= c
    ensures a <= a + b <= a + c
  {
    assert c == b + c[|b|..];
    Associative(a, b, c[|b|..]);
  }

  method RunBuiltIns(eligible: seq<StepDef>, ctx: Context, context: Context, w: World,
                     trace0: seq<Visit>, queue0: seq<Item>, ghost root: Item, ghost served: seq<Item>)
    returns (trace: seq<Visit>, queue: seq<Item>)
    requires ctx == context.(depth := ctx.depth)
    requires Accounted(root, served, queue0, trace0, w)
    ensures trace == trace0 + Visits(Filter(eligible, IsBuiltIn()), ctx)
    ensures Accounted(root, served, queue, trace, w)
    ensures Grown(queue0, queue, ctx, |Filter(eligible, IsBuiltIn())|)
  {
    trace, queue := trace0, queue0;
    for i := 0 to |eligible|
      invariant trace == trace0 + Ran(eligible, i, IsBuiltIn(), ctx)
      invariant Accounted(root, served, queue, trace, w)
      invariant Grown(queue0, queue, ctx, |Ran(eligible, i, IsBuiltIn(), ctx)|)
    {
      var step := eligible[i];
      RanOneMore(eligible, i, IsBuiltIn(), ctx);
      if TypeOf(step).BuiltInStep? {
        BuiltInVisited(root, served, queue, trace, Visit(step, ctx), w);
        GrownBy(queue0, queue, Visit(step, ctx), |Ran(eligible, i, IsBuiltIn(), ctx)|);
        Associative(trace0, Ran(eligible, i, IsBuiltIn(), ctx), [Visit(step, ctx)]);
        trace := trace + [Visit(step, ctx)];
        if TypeOf(step).evaluator == ToolExecutor {
          var calls := w.toolCalls(trace);
          if calls.Some? && calls.value > 0 {
            var followUp := Item(StepComplete(step.id), context.(depth := ctx.depth + 1));
            assert followUp == FollowUp(Visit(step, ctx));
            queue := queue + [followUp];
          }
        }
      }
    }
    RanIsPrefix(eligible, 0, IsBuiltIn(), ctx);
  }

  method DispatchRpcs(eligible: seq<StepDef>, ctx: Context, w: World,
                      trace0: seq<Visit>, queue0: seq<Item>, ghost root: Item, ghost served: seq<Item>)
    returns (trace: seq<Visit>, queue: seq<Item>, failure: Option<string>)
    requires Accounted(root, served, queue0, trace0, w)
    ensures Grown(queue0, queue, ctx, |Filter(eligible, IsRpc())|)
    ensures failure.None? ==>
      trace == trace0 + Visits(Filter(eligible, IsRpc()), ctx) && Accounted(root, served, queue, trace, w)
    ensures failure.Some? ==>
      && trace0 < trace <= trace0 + Visits(Filter(eligible, IsRpc()), ctx)
      && FailedAtLast(trace, failure, w) && served + queue == [root] + FollowUps(trace, w)
  {
    trace, queue, failure := trace0, queue0, None;
    for i := 0 to |eligible|
      invariant Accounted(root, served, queue, trace, w) && failure.None?
      invariant Dispatched(eligible, i, ctx, trace0, queue0, trace, queue)
    {
      var step := eligible[i];
      if TypeOf(step).Rpc? {
        RpcVisited(root, served, queue, trace, Visit(step, ctx), w);
        RpcRan(eligible, i, ctx, trace0, queue0, trace, queue);
        trace := trace + [Visit(step, ctx)];
        failure := w.rpcError(trace);
        if failure.Some? {
          return;
        }
        var followUp := Item(StepComplete(step.id), ctx.(depth := ctx.depth + 1));
        assert followUp == FollowUp(Visit(step, ctx));
        queue := queue + [followUp];
      } else {
        RanOneMore(eligible, i, IsRpc(), ctx);
      }
    }
    RanIsPrefix(eligible, 0, IsRpc(), ctx);
  }

  /** All that a run ever queues: the trigger, then its follow-ups in the order of their visits. */
  function Items(event: TriggerType, context: Context, trace: seq<Visit>, w: World): seq<Item> {
    [Item(event, context)] + FollowUps(trace, w)
  }

  /**
   * Serves `event` and all it leads to; `trace` lists the visits in order. A run that ends
   * well has run exactly what the queued events ask for, in queue order; one that fails is
   * cut off right after the failing call.
   */
  method OnTrigger(p: Pipeline, event: TriggerType, context: Context, w: World)
    returns (trace: seq<Visit>, failure: Option<string>)
    ensures failure.None? ==> trace == Flat(Runs(p), Items(event, context, trace, w)) && NeverFails(trace, w)
    ensures failure.Some? ==> trace <= Flat(Runs(p), Items(event, context, trace, w)) && FailedAtLast(trace, failure, w)
    ensures Ascending(Items(event, context, trace, w))
  {
    ghost var root := Item(event, context);
    ghost var served: seq<Item> := [];
    var queue := [Item(event, context)];
    trace, failure := [], None;
    Starts(p, event, context, w);
    while |queue| > 0
      invariant Accounted(root, served, queue, trace, w) && failure.None?
      invariant trace == Flat(Runs(p), served)
      invariant QueueOk(served, queue, context)
      decreases Total(Weight(p), queue)
    {
      var item := queue[0];
      assert queue == [item] + queue[1..];
      queue := queue[1..];
      ghost var rest := queue;
      Served(p, root, served, item, queue, trace, context, w);
      served := served + [item];
      if Skipped(p, item) {
        continue;
      }
      var eligible := Filter(p.steps, Picks(item));
      if eligible == [] {
        NothingChosen(p, item);
        continue;
      }
      ghost var before := trace;
      trace, queue := RunBuiltIns(eligible, item.ctx, context, w, trace, queue, root, served);
      ghost var builtIns := queue;
      trace, queue, failure := DispatchRpcs(eligible, item.ctx, w, trace, queue, root, served);
      RanThrough(p, item, before);
      QueueGrown(p, item, rest, builtIns, queue, context, served);
      if failure.Some? {
        FlatPrefix(p, served, queue);
        return;
      }
    }
    assert served + queue == served;
  }

  /** What the loop keeps about the depths and contexts in the queue. */
  predicate QueueOk(served: seq<Item>, queue: seq<Item>, context: Context) {
    Staircase(queue) && SameButDepth(queue, context) && Ascending(served + queue)
  }

  lemma Starts(p: Pipeline, event: TriggerType, context: Context, w: World)
    ensures Accounted(Item(event, context), [], [Item(event, context)], [], w)
    ensures QueueOk([], [Item(event, context)], context) && Flat(Runs(p), []) == []
  {
    assert [] + [Item(event, context)] == [Item(event, context)] + [];
  }

  lemma NothingChosen(p: Pipeline, item: Item)
    requires Filter(p.steps, Picks(item)) == []
    ensures Chosen(p, item) == []
  {
  }

  lemma FlatPrefix(p: Pipeline, served: seq<Item>, queue: seq<Item>)
    ensures Flat(Runs(p), served) <= Flat(Runs(p), served + queue)
  {
    FlatConcat(Runs(p), served, queue);
  }

  lemma RanThrough(p: Pipeline, item: Item, before: seq<Visit>)
    requires !Skipped(p, item)
    ensures var eligible := Filter(p.steps, Picks(item));
            before + Visits(Filter(eligible, IsBuiltIn()), item.ctx) + Visits(Filter(eligible, IsRpc()), item.ctx)
            == before + Visits(Chosen(p, item), item.ctx)
  {
    var eligible := Filter(p.steps, Picks(item));
    VisitsAppend(Filter(eligible, IsBuiltIn()), Filter(eligible, IsRpc()), item.ctx);
    Associative(before, Visits(Filter(eligible, IsBuiltIn()), item.ctx), Visits(Filter(eligible, IsRpc()), item.ctx));
  }

  /** Popping the front keeps the accounts; if it runs nothing that is all. */
  lemma Served(p: Pipeline, root: Item, served: seq<Item>, item: Item, rest: seq<Item>, trace: seq<Visit>,
               context: Context, w: World)
    requires Accounted(root, served, [item] + rest, trace, w) && trace == Flat(Runs(p), served)
    requires QueueOk(served, [item] + rest, context)
    ensures Accounted(root, served + [item], rest, trace, w) && QueueOk(served + [item], rest, context)
    ensures Flat(Runs(p), served + [item]) == trace + Visits(Chosen(p, item), item.ctx)
    ensures Chosen(p, item) == [] ==> Flat(Runs(p), served + [item]) == trace
    ensures Total(Weight(p), rest) < Total(Weight(p), [item] + rest)
    ensures item.ctx == context.(depth := item.ctx.depth)
  {
    var queue := [item] + rest;
    PoppingIsLighter(p, item, rest);
    assert (served + [item]) + rest == served + queue;
    assert queue[0] == item && queue[1..] == rest;
    PoppedQueueOk(served, queue, context);
    FlatAppend(Runs(p), served, item);
  }

  lemma PoppingIsLighter(p: Pipeline, item: Item, rest: seq<Item>)
    ensures Total(Weight(p), rest) < Total(Weight(p), [item] + rest)
  {
    assert ([item] + rest)[0] == item && ([item] + rest)[1..] == rest;
    assert Weight(p)(item) > 0;
  }

  lemma PoppedQueueOk(served: seq<Item>, queue: seq<Item>, context: Context)
    requires queue != [] && QueueOk(served, queue, context)
    ensures QueueOk(served + [queue[0]], queue[1..], context)
  {
    var rest := queue[1..];
    assert (served + [queue[0]]) + rest == served + queue;
    forall i, j | 0 <= i < j < |rest| ensures rest[i].ctx.depth <= rest[j].ctx.depth <= rest[i].ctx.depth + 1 {
      assert rest[i] == queue[i + 1] && rest[j] == queue[j + 1];
    }
  }

  /** What serving one event adds to the queue. */
  lemma QueueGrown(p: Pipeline, item: Item, queued: seq<Item>, builtIns: seq<Item>, queue: seq<Item>,
                   context: Context, served: seq<Item>)
    requires !Skipped(p, item) && item.ctx == context.(depth := item.ctx.depth)
    requires Staircase([item] + queued) && QueueOk(served, queued, context)
    requires served != [] && served[|served| - 1] == item
    requires Grown(queued, builtIns, item.ctx, |Filter(Filter(p.steps, Picks(item)), IsBuiltIn())|)
    requires Grown(builtIns, queue, item.ctx, |Filter(Filter(p.steps, Picks(item)), IsRpc())|)
    ensures QueueOk(served, queue, context) && Total(Weight(p), queue) < Total(Weight(p), [item] + queued)
  {
    var more := queue[|queued|..];
    assert more == builtIns[|queued|..] + queue[|builtIns|..];
    assert queue == queued + more;
    ChosenIsBounded(p, item);
    ServingIsLighter(p, item, queued, more);
    StaircaseGrows(queued, more, item, context);
    AscendingGrows(served, queued, more, item);
  }

  lemma StaircaseGrows(queued: seq<Item>, more: seq<Item>, item: Item, context: Context)
    requires Staircase([item] + queued) && SameButDepth(queued, context) && item.ctx == context.(depth := item.ctx.depth)
    requires Follow(more, item.ctx)
    ensures Staircase(queued + more) && SameButDepth(queued + more, context)
  {
    var queue := queued + more;
    assert item == ([item] + queued)[0];
    assert forall i :: 0 <= i < |queued| ==> queued[i] == ([item] + queued)[i + 1];
    forall i | 0 <= i < |queue|
      ensures item.ctx.depth <= queue[i].ctx.depth <= item.ctx.depth + 1 && queue[i].ctx == context.(depth := queue[i].ctx.depth)
    {
      assert queue[i] == if i < |queued| then queued[i] else more[i - |queued|];
    }
    forall i, j | 0 <= i < j < |queue| ensures queue[i].ctx.depth <= queue[j].ctx.depth {
      assert j < |queued| ==> queue[i] == queued[i] && queue[j] == queued[j];
      assert j >= |queued| ==> queue[j] == more[j - |queued|];
    }
  }

  lemma AscendingGrows(served: seq<Item>, queued: seq<Item>, more: seq<Item>, item: Item)
    requires Ascending(served + queued) && served != [] && served[|served| - 1] == item
    requires Staircase([item] + queued) && Follow(more, item.ctx)
    ensures Ascending(served + (queued + more))
  {
    var earlier, all := served + queued, served + (queued + more);
    assert all == earlier + more;
    forall i | 0 <= i < |earlier| ensures earlier[i].ctx.depth <= item.ctx.depth + 1 {
      if i < |served| {
        assert earlier[|served| - 1] == item;
      } else {
        assert earlier[i] == ([item] + queued)[i - |served| + 1] && ([item] + queued)[0] == item;
      }
    }
  }

  // ----- Layers -----

  /** Every visit completes: remote calls that succeed, tool runs that find calls. */
  ghost predicate AllContinue(trace: seq<Visit>, w: World) {
    forall i :: 0 < i <= |trace| ==> Continues(trace[..i], w)
  }

  function Depth(item: Item): nat {
    item.ctx.depth
  }

  lemma {:induction false} AllFollow(trace: seq<Visit>, w: World)
    requires AllContinue(trace, w)
    ensures FollowUps(trace, w) == Map(FollowUp, trace)
  {
    if trace != [] {
      var front := trace[..|trace| - 1];
      assert trace[..|trace|] == trace;
      forall i | 0 < i <= |front| ensures Continues(front[..i], w) {
        assert front[..i] == trace[..i];
      }
      AllFollow(front, w);
      var last := trace[|trace| - 1];
      assert trace == front + [last];
      OneMoreFollowUp(front, last, w);
      MapAppend(FollowUp, front, last);
    }
  }

  lemma OneMoreFollowUp(trace: seq<Visit>, v: Visit, w: World)
    requires Continues(trace + [v], w)
    ensures FollowUps(trace + [v], w) == FollowUps(trace, w) + [FollowUp(v)]
  {
    QueuedAppend(trace, v, Outcome(w));
  }

  lemma RunsAreRanked(p: Pipeline)
    ensures Ranked(Runs(p), FollowUp, Depth, p.maxDepth)
  {
  }

  /**
   * The work queue refines the layered definition: a run all of whose visits complete is
   * exactly layer 0, then layer 1, and so on up to the depth limit.
   */
  lemma WorkQueueIsLayered(p: Pipeline, root: Item, trace: seq<Visit>, w: World, m: nat)
    requires trace == Flat(Runs(p), [root] + FollowUps(trace, w)) && AllContinue(trace, w)
    requires m > 0 && root.ctx.depth + m >= p.maxDepth
    ensures trace == Layers(Runs(p), FollowUp, root, m)
  {
    AllFollow(trace, w);
    RunsAreRanked(p);
    SelfFeedingIsLayered(Runs(p), FollowUp, Depth, p.maxDepth, root, trace, m);
  }

  lemma {:induction false} FlatRunsSteps(p: Pipeline, items: seq<Item>)
    ensures forall i :: 0 <= i < |Flat(Runs(p), items)| ==> Flat(Runs(p), items)[i].step in p.steps
  {
    if items != [] {
      var item := items[|items| - 1];
      FlatRunsSteps(p, items[..|items| - 1]);
      var chosen := Chosen(p, item);
      forall i | 0 <= i < |chosen| ensures chosen[i] in p.steps {
        ChosenStep(p, item, chosen[i]);
      }
    }
  }

  lemma ChosenStep(p: Pipeline, item: Item, s: StepDef)
    ensures s in Chosen(p, item) <==> !Skipped(p, item) && s in p.steps && Picks(item)(s)
  {
    var eligible := Filter(p.steps, Picks(item));
    FilterMember(p.steps, Picks(item), s);
    FilterMember(eligible, IsBuiltIn(), s);
    FilterMember(eligible, IsRpc(), s);
  }

  /** A pipeline of remote steps whose calls all succeed runs its layers, and nothing else. */
  lemma LayeredWhenCallsSucceed(p: Pipeline, root: Item, trace: seq<Visit>, w: World, m: nat)
    requires forall s :: s in p.steps ==> TypeOf(s).Rpc?
    requires trace == Flat(Runs(p), [root] + FollowUps(trace, w)) && NeverFails(trace, w)
    requires m > 0 && root.ctx.depth + m >= p.maxDepth
    ensures trace == Layers(Runs(p), FollowUp, root, m)
  {
    FlatRunsSteps(p, [root] + FollowUps(trace, w));
    forall i | 0 < i <= |trace| ensures Continues(trace[..i], w) {
      assert !Fails(trace[..i], w) && trace[..i][i - 1] == trace[i - 1];
    }
    WorkQueueIsLayered(p, root, trace, w, m);
  }

  // ----- Trigger paths -----

  /** The event at the end of a path of completed steps. */
  function EventAfter(root: Item): seq<StepDef> -> Item {
    (path: seq<StepDef>) =>
      if path == [] then root
      else Item(StepComplete(path[|path| - 1].id), root.ctx.(depth := root.ctx.depth + |path|))
  }

  /** The visit at the end of a path. */
  function LastVisit(root: Item): seq<StepDef> -> Visit {
    (path: seq<StepDef>) =>
      if path == [] then Visit(StepDef("", "", "", None), root.ctx)
      else Visit(path[|path| - 1], root.ctx.(depth := root.ctx.depth + |path| - 1))
  }

  /** The steps a path of completed steps triggers. */
  function Triggered(p: Pipeline, root: Item): seq<StepDef> -> seq<StepDef> {
    (path: seq<StepDef>) => Chosen(p, EventAfter(root)(path))
  }

  lemma PathsFollow(root: Item, path: seq<StepDef>)
    requires path != []
    ensures FollowUp(LastVisit(root)(path)) == EventAfter(root)(path)
  {
  }

  lemma RunsReadPaths(p: Pipeline, root: Item)
    ensures Reads(Runs(p), FollowUp, root, Triggered(p, root), LastVisit(root), EventAfter(root))
  {
    forall path ensures Runs(p)(EventAfter(root)(path)) == Map(LastVisit(root), Extended(path, Triggered(p, root)(path))) {
      var item := EventAfter(root)(path);
      assert Runs(p)(item) == Visits(Chosen(p, item), item.ctx) && Triggered(p, root)(path) == Chosen(p, item);
      RunsExtendPath(root, path, Chosen(p, item));
    }
    forall path | path != [] ensures FollowUp(LastVisit(root)(path)) == EventAfter(root)(path) {
      PathsFollow(root, path);
    }
  }

  lemma RunsExtendPath(root: Item, path: seq<StepDef>, steps: seq<StepDef>)
    ensures Visits(steps, EventAfter(root)(path).ctx) == Map(LastVisit(root), Extended(path, steps))
  {
    forall i | 0 <= i < |steps|
      ensures LastVisit(root)(path + [steps[i]]) == Visit(steps[i], EventAfter(root)(path).ctx)
    {
    }
  }

  lemma {:induction false} FilterKeepsDistinct<T>(xs: seq<T>, p: T -> bool)
    requires Distinct(xs)
    ensures Distinct(Filter(xs, p))
  {
    if xs != [] {
      var front := xs[..|xs| - 1];
      var kept := Filter(front, p);
      FilterKeepsDistinct(front, p);
      forall i | 0 <= i < |kept| ensures kept[i] != xs[|xs| - 1] {
        assert kept[i] in kept;
        FilterMember(front, p, kept[i]);
        var j :| 0 <= j < |front| && front[j] == kept[i];
        assert xs[j] == front[j];
      }
    }
  }

  lemma ChosenIsDistinct(p: Pipeline, item: Item)
    requires Distinct(p.steps)
    ensures Distinct(Chosen(p, item))
  {
    var eligible := Filter(p.steps, Picks(item));
    FilterKeepsDistinct(p.steps, Picks(item));
    FilterKeepsDistinct(eligible, IsBuiltIn());
    FilterKeepsDistinct(eligible, IsRpc());
    FilterMembers(eligible, IsBuiltIn());
    FilterMembers(eligible, IsRpc());
    var a, b := Filter(eligible, IsBuiltIn()), Filter(eligible, IsRpc());
    forall i, j | 0 <= i < |a| && 0 <= j < |b| ensures a[i] != b[j] {
      assert a[i] in a && b[j] in b;
    }
  }

  /**
   * Each step runs once per trigger path: the visits of layer `k` are, one for one, the
   * trigger paths of `k + 1` steps, each path exactly once.
   */
  lemma OncePerTriggerPath(p: Pipeline, root: Item, k: nat)
    requires Distinct(p.steps)
    ensures var paths := Paths(Triggered(p, root), k + 1);
            && Layer(Runs(p), FollowUp, root, k) == Map(LastVisit(root), paths)
            && Distinct(paths)
            && forall path :: path in paths <==> |path| == k + 1 && Follows(Triggered(p, root), path)
  {
    RunsReadPaths(p, root);
    LayerFollowsPaths(Runs(p), FollowUp, root, Triggered(p, root), LastVisit(root), EventAfter(root), k);
    forall path ensures Distinct(Triggered(p, root)(path)) {
      ChosenIsDistinct(p, EventAfter(root)(path));
    }
    PathsDistinct(Triggered(p, root), k + 1);
    forall path {
      PathMembers(Triggered(p, root), k + 1, path);
    }
  }

  /** At most n^(k+1) visits at layer `k`. */
  lemma {:induction false} LayerIsBounded(p: Pipeline, root: Item, k: nat)
    ensures |Layer(Runs(p), FollowUp, root, k)| <= Power(|p.steps|, k + 1)
  {
    var items := LayerItems(Runs(p), FollowUp, root, k);
    forall i | 0 <= i < |items| ensures |Runs(p)(items[i])| <= |p.steps| {
      ChosenIsBounded(p, items[i]);
    }
    FlatIsBounded(Runs(p), items, |p.steps|);
    if k > 0 {
      LayerIsBounded(p, root, k - 1);
      assert |items| == |Layer(Runs(p), FollowUp, root, k - 1)|;
      Times(|items|, Power(|p.steps|, k), |p.steps|);
    } else {
      assert |items| == 1 && Power(|p.steps|, 1) == |p.steps| * Power(|p.steps|, 0);
    }
  }

  // ----- How much a run can do -----

  function VisitDepth(): Visit -> nat {
    (v: Visit) => v.ctx.depth
  }

  function ItemDepth(): Item -> nat {
    (item: Item) => item.ctx.depth
  }

  lemma RunsAreCounted(p: Pipeline, w: World)
    ensures Counted(Runs(p), Outcome(w), VisitDepth(), ItemDepth(), |p.steps|)
  {
    forall item ensures |Runs(p)(item)| <= |p.steps| {
      ChosenIsBounded(p, item);
    }
  }

  /**
   * Every run, finished or cut off by a failing call, whatever its steps and the world:
   * at most n^(k+1) visits at the k-th depth from where it starts, and none above.
   */
  lemma RunIsBounded(p: Pipeline, event: TriggerType, context: Context, w: World, trace: seq<Visit>, d: nat)
    requires trace <= Flat(Runs(p), Items(event, context, trace, w))
    ensures Count(trace, VisitDepth(), d) <= RankBound(|p.steps|, context.depth, d)
  {
    RunsAreCounted(p, w);
    var root := Item(event, context);
    ghost var next := Outcome(w);
    assert Items(event, context, trace, w) == [root] + Queued(trace, next);
    assert ItemDepth()(root) == context.depth;
    SelfFeedingIsBounded(Runs(p), next, VisitDepth(), ItemDepth(), |p.steps|, root, context.depth, trace, d);
  }
}
