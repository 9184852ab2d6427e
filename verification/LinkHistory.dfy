/** What the reductions for one token put on each link, and in which order. */
module LinkHistory {
  import opened Grammars
  import opened LrMachine
  import opened Gss
  import opened PathQueue
  import opened Worklist
  import opened ExactlyOnce
  import opened Derivations
  import opened YieldThenMerge

  /** The values merged into one, from the first to the last. */
  function Alternatives(tree: Tree): seq<Tree> {
    if tree.Alt? then Alternatives(tree.left) + [tree.right] else [tree]
  }

  ghost function Held(w: Work, e: Edge): seq<Tree> {
    if e in w.links then Alternatives(w.links[e].sval) else []
  }

  /** The first path of the queue is reduced onto `e`: its value is kept, `e` leads from the goto parser to the
      left end of the path, and if there was such a link that parser can do something with the token. */
  ghost predicate LandsOn(ctx: Context, w: Work, w': Work, e: Edge) {
    w.queue != [] && CanProcess(ctx, w, w.queue[0]) &&
    var p := w.queue[0];
    var b := LhsOf(ctx.pt, p.prod);
    && ctx.keep(b, ReducedValue(w)) && e.1 == p.chain[0]
    && e.0 in w'.tp && e.0 < |w'.ns| && w'.ns[e.0].state == ctx.pt.goto[(w.ns[p.chain[0]].state, b)]
    && (e in w.links ==> ActionEntry(ctx.pt, w'.ns[e.0].state, ctx.token) != Error)
  }

  ghost function Arriving(ctx: Context, w: Work, w': Work, e: Edge): seq<Tree> {
    if LandsOn(ctx, w, w', e) then [ReducedValue(w)] else []
  }

  /** A step puts the reduced value after those that are on its link, and changes no other link. */
  lemma StepArrives(ctx: Context, w: Work, w': Work, e: Edge)
    requires StepsTo(ctx, w, w')
    ensures Held(w', e) == Held(w, e) + Arriving(ctx, w, w', e)
  {
    var w1, p := Yielded(w), w.queue[0];
    YieldKeepsLinks(w.links, p.chain);
    if ctx.keep(LhsOf(ctx.pt, p.prod), ReducedValue(w)) {
      if OutcomeOf(ctx, w1, p.chain[0], LhsOf(ctx.pt, p.prod)) == NewNode {
        PushArrives(ctx, w, w', StackNode(GotoOf(ctx, w), ctx.column, [p.chain[0]]), e);
      } else {
        ArrivesOnTop(ctx, w, w', e);
      }
    }
  }

  lemma ArrivesOnTop(ctx: Context, w: Work, w': Work, e: Edge)
    requires StepsTo(ctx, w, w') && ctx.keep(LhsOf(ctx.pt, w.queue[0].prod), ReducedValue(w))
    requires OutcomeOf(ctx, Yielded(w), w.queue[0].chain[0], LhsOf(ctx.pt, w.queue[0].prod)) != NewNode
    ensures Held(w', e) == Held(w, e) + Arriving(ctx, w, w', e)
  {
    var top := FindTop(w.ns, w.tp, GotoOf(ctx, w));
    YieldKeepsLinks(w.links, w.queue[0].chain);
    LandsOnTop(ctx, w, w', top.value, e);
    assert (top.value, w.queue[0].chain[0]) in w.links <==> Linked(w.ns, top.value, w.queue[0].chain[0]);
  }

  ghost function GotoOf(ctx: Context, w: Work): nat
    requires w.queue != [] && CanProcess(ctx, w, w.queue[0])
  {
    ctx.pt.goto[(w.ns[w.queue[0].chain[0]].state, LhsOf(ctx.pt, w.queue[0].prod))]
  }

  /** With one parser in the goto state, the value can land on one link only. */
  lemma LandsOnTop(ctx: Context, w: Work, w': Work, r: nat, e: Edge)
    requires Shape(ctx, w) && w.queue != [] && CanProcess(ctx, w, w.queue[0])
    requires r in w.tp && r < |w.ns| && w.ns[r].state == GotoOf(ctx, w) && w'.tp == w.tp && |w'.ns| == |w.ns|
    requires forall u: nat :: u < |w.ns| ==> w'.ns[u].state == w.ns[u].state
    requires ctx.keep(LhsOf(ctx.pt, w.queue[0].prod), ReducedValue(w))
    ensures LandsOn(ctx, w, w', e) <==>
            e == (r, w.queue[0].chain[0])
            && (e in w.links ==> ActionEntry(ctx.pt, GotoOf(ctx, w), ctx.token) != Error)
  {
  }

  /** ... and without such a parser, on the link of the new one only. */
  lemma LandsOnNew(ctx: Context, w: Work, w': Work, node: StackNode, e: Edge)
    requires Shape(ctx, w) && w.queue != [] && CanProcess(ctx, w, w.queue[0])
    requires forall u :: u in w.tp ==> w.ns[u].state != GotoOf(ctx, w)
    requires w'.tp == w.tp + [|w.ns|] && w'.ns == w.ns + [node] && node.state == GotoOf(ctx, w)
    requires ctx.keep(LhsOf(ctx.pt, w.queue[0].prod), ReducedValue(w))
    ensures (|w.ns|, w.queue[0].chain[0]) !in w.links
    ensures LandsOn(ctx, w, w', e) <==> e == (|w.ns|, w.queue[0].chain[0])
  {
    assert !Linked(w.ns, |w.ns|, w.queue[0].chain[0]);
  }

  lemma PushArrives(ctx: Context, w: Work, w': Work, node: StackNode, e: Edge)
    requires Shape(ctx, w) && w.queue != [] && CanProcess(ctx, w, w.queue[0])
    requires forall u :: u in w.tp ==> w.ns[u].state != GotoOf(ctx, w)
    requires w'.tp == w.tp + [|w.ns|] && w'.ns == w.ns + [node] && node.state == GotoOf(ctx, w)
    requires ctx.keep(LhsOf(ctx.pt, w.queue[0].prod), ReducedValue(w)) && ReducedValue(w).Node?
    requires w'.links == YieldLinks(w.links, w.queue[0].chain)
                         [(|w.ns|, w.queue[0].chain[0]) := SiblingLink(ReducedValue(w), 0)]
    ensures Held(w', e) == Held(w, e) + Arriving(ctx, w, w', e)
  {
    YieldKeepsLinks(w.links, w.queue[0].chain);
    LandsOnNew(ctx, w, w', node, e);
  }

  ghost function HeldOn(e: Edge): Work -> seq<Tree> {
    w => Held(w, e)
  }

  ghost function ArrivingOn(ctx: Context, e: Edge): (Work, Work) -> seq<Tree> {
    (w, w') => Arriving(ctx, w, w', e)
  }

  /** What the steps of a run add, one after the other. */
  ghost function AddedDuring<A, B>(added: (A, A) -> seq<B>, run: seq<A>): seq<B> {
    if |run| <= 1 then [] else AddedDuring(added, run[..|run| - 1]) + added(run[|run| - 2], run[|run| - 1])
  }

  lemma {:induction false} ChainAdds<A(!new), B>(next: (A, A) -> bool, held: A -> seq<B>, added: (A, A) -> seq<B>,
                                                 run: seq<A>)
    requires run != [] && Chain(next, run) && forall a, b :: next(a, b) ==> held(b) == held(a) + added(a, b)
    ensures held(run[|run| - 1]) == held(run[0]) + AddedDuring(added, run)
  {
    if |run| > 1 {
      ChainBack(next, run);
      ChainAdds(next, held, added, run[..|run| - 1]);
    }
  }

  /** After any number of steps a link holds what it held before, and then exactly the values reduced onto it, each
      once and in the order of the reductions. */
  lemma RunArrives(ctx: Context, run: seq<Work>, e: Edge)
    requires WorkRun(ctx, run)
    ensures Held(Last(run), e) == Held(run[0], e) + AddedDuring(ArrivingOn(ctx, e), run)
  {
    forall w, w' | Steps(ctx)(w, w') ensures HeldOn(e)(w') == HeldOn(e)(w) + ArrivingOn(ctx, e)(w, w') {
      StepArrives(ctx, w, w', e);
    }
    ChainAdds(Steps(ctx), HeldOn(e), ArrivingOn(ctx, e), run);
  }
}
