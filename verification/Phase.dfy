/** Everything the reduction phase of a token maintains, in one place. */
module Phase {
  import opened Grammars
  import opened LrMachine
  import opened Gss
  import opened PathQueue
  import opened Worklist
  import opened ExactlyOnce
  import opened Derivations
  import opened Stacks
  import opened YieldThenMerge
  import opened CompleteForest
  import opened MiniLr
  import opened BuiltTrees

  ghost predicate PhaseInv(g: Grammar, input: seq<nat>, ctx: Context, base: iset<seq<nat>>, w: Work,
                           done: iset<Path>, log: seq<Dequeued>) {
    && Shape(ctx, w) && Once(ctx, w, done)
    && ctx.pt.prods == g.prods && ctx.column <= |input| && LinksDerive(g, input, ctx.pt, w.ns, w.links)
    && ctx.token == TokenAt(input, ctx.column) && LinksBuilt(ctx.pt, ctx.keep, input, w.ns, w.links)
    && StackSound(ctx, base, w) && base <= GssStacks(w.ns, w.tp)
    && (KeepsAll(ctx) ==> DoneShifted(ctx, w, done))
    && (OrderExact(g, ctx.pt) ==> History(ctx, w, log))
    && (OrderExact(g, ctx.pt) && KeepsAll(ctx) ==> ForestComplete(ctx, w, done))
  }

  /** Each reduction keeps all of it, and with an exact order never counts a yield-then-merge. */
  lemma StepPhase(g: Grammar, input: seq<nat>, ctx: Context, base: iset<seq<nat>>, w: Work, done: iset<Path>,
                  log: seq<Dequeued>)
    requires PhaseInv(g, input, ctx, base, w, done, log) && w.queue != []
    ensures Ready(ctx.pt, w) && CanProcess(ctx, w, w.queue[0]) && w.queue[0] !in done
    ensures PhaseInv(g, input, ctx, base, Step(ctx, w), done + iset{w.queue[0]}, log + [Entry(ctx, w)])
    ensures OrderExact(g, ctx.pt) ==> Step(ctx, w).ytm == w.ytm
  {
    var grew, r := StepOnce(ctx, w, done);
    StepDerives(g, input, ctx, w, done);
    StepBuilds(g, input, ctx, w, done);
    StepSound(ctx, base, w, done);
    StepComplete(ctx, w, done);
    if OrderExact(g, ctx.pt) {
      StepHistory(g, input, ctx, w, done, log);
      StepNeverMergesYielded(g, input, ctx, w, done, log);
      if KeepsAll(ctx) {
        StepForest(ctx, w, done);
      }
    }
  }

  /** The phase starts with the enabled reductions of the frontier queued. */
  lemma StartPhase(g: Grammar, input: seq<nat>, ctx: Context, w: Work, w0: Work)
    requires AtRest(ctx, w) && ctx.pt.prods == g.prods && ctx.column <= |input|
    requires LinksDerive(g, input, ctx.pt, w.ns, w.links) && ReductionsInRange(ctx.pt)
    requires ctx.token == TokenAt(input, ctx.column) && LinksBuilt(ctx.pt, ctx.keep, input, w.ns, w.links)
    requires w0 == w.(queue := InsertAll(ctx.pt, [], EnqueuedAll(ctx.pt, ctx.token, w.ns, w.tp, None)))
    ensures PhaseInv(g, input, ctx, GssStacks(w.ns, w.tp), w0, iset{}, [])
  {
    StartOnce(ctx, w, w0);
    SoundAtStart(ctx, w0);
  }

  lemma StartOnce(ctx: Context, w: Work, w0: Work)
    requires AtRest(ctx, w) && ReductionsInRange(ctx.pt)
    requires w0 == w.(queue := InsertAll(ctx.pt, [], EnqueuedAll(ctx.pt, ctx.token, w.ns, w.tp, None)))
    ensures Once(ctx, w0, iset{})
  {
    var added := EnqueuedAll(ctx.pt, ctx.token, w.ns, w.tp, None);
    EnqueuedAllExact(ctx.pt, ctx.token, w.ns, w.tp, None);
    DistinctInsertAll(ctx.pt, [], added);
    InsertAllSorted(ctx.pt, [], added);
  }

  /** What has been achieved once the queue is empty. */
  lemma EndPhase(g: Grammar, input: seq<nat>, ctx: Context, base: iset<seq<nat>>, w: Work, done: iset<Path>,
                 log: seq<Dequeued>)
    requires PhaseInv(g, input, ctx, base, w, done, log) && w.queue == []
    ensures GssStacks(w.ns, w.tp) <= Closure(ctx.pt, ctx.token, base)
    ensures KeepsAll(ctx) ==> GssStacks(w.ns, w.tp) == Closure(ctx.pt, ctx.token, base)
    ensures OrderExact(g, ctx.pt) && KeepsAll(ctx) ==> ForestDone(ctx, w)
  {
    ReducedStacks(ctx, base, w, done);
  }
}
