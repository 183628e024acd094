/** The promises a caller can make about a run, each exactly as strong as it must be: fetching open results
    keeps the counters exact, and leaving the parameter block alone keeps every handle on the stored one. */
module Promises {
  import opened State
  import opened Transactions
  import opened Queries
  import opened Steps
  import LegacyTrans
  import opened Invariant
  import opened TransactionsKeep
  import opened LinksKeep
  import opened QueriesKeep
  import opened ExecKeeps
  import opened StepsKeep
  import opened Outcomes
  import opened Cascade

  // ------------------------------------------------------------ exact counters

  /** Every counter is the number of open cursors, unless one has wrapped around. */
  ghost predicate Exact(w: World) {
    w.wrapped || forall t :: t in w.trans ==> w.trans[t].count == |OpenOn(w.queries, t)|
  }

  lemma StrictIsExact(w: World)
    requires Inv(w, None) && w.rules.strict
    ensures Exact(w)
  {
    hide Inv, OpenOn;
    if !w.wrapped {
      forall t | t in w.trans ensures w.trans[t].count == |OpenOn(w.queries, t)| { CounterBounds(w, t, None); }
    }
  }

  /** Freeing a batch together with an open, unfetched result leaves the same counter too high. */
  lemma BatchLeaks(w: World, b: Addr, net: Net)
    requires Inv(w, None) && !w.wrapped && b in w.batches && w.batches[b].query in w.queries &&
             !Fetched(w, w.batches[b].query)
    ensures !Exact(BatchFree(w, b, true, net))
  {
    hide Inv, FreeQuery, OpenOn, QueryOnLink, RemoveBatch;
    var q := w.batches[b].query;
    QueryLive(w, q, None);
    var t := w.queries[q].trans.value;
    UnfetchedLeaks(w, q, t, net);
    RemovalIs(FreeQuery(w, q, net), b, t);
  }

  lemma RemovalIs(w: World, b: Addr, t: Addr)
    requires t in w.trans
    ensures var r := RemoveBatch(w, b);
            t in r.trans && r.trans[t].count == w.trans[t].count && r.queries == w.queries && r.wrapped == w.wrapped
  {
    hide Without;
  }

  /** An open result whose default transaction has ended leaves its registry before the server refuses to start
      that transaction again, and is not counted down. */
  lemma RefusedRehome(w: World, q: Addr, dflt: seq<Byte>)
    requires Inv(w, None) && !w.wrapped && q in w.queries && w.queries[q].isOpen && Rehomes(w, q)
    ensures var (live, r) := EnsureDefault(w, q, dflt, NO); !live && !Exact(r)
  {
    hide Inv, QueryOnLink, OpenOn, Left;
    QueryLive(w, q, None);
    var (t, l) := (w.queries[q].trans.value, w.queries[q].link);
    DefaultOf(w, q);
    OneDefaultEach(w, l, t, None);
    var w1 := Unenroll(w, q);
    LeftDefaults(w.trans, w.queries[q].reg, q);
    LeftCount(w.trans, w.queries[q].reg, q, t);
    FirstDefaultLike(w.trans, w1.trans, w.links[l].trs);
    WalkStays(w, w1, l);
    CounterBounds(w, t, None);
    LeftOpen(w.queries, w1.queries, q, t);
  }

  lemma DefaultOf(w: World, q: Addr)
    requires Inv(w, None) && q in w.queries && Rehomes(w, q)
    ensures var t := w.queries[q].trans.value;
            w.trans[t].isDefault && w.trans[t].link == Some(w.queries[q].link) && w.queries[q].link in w.links &&
            Walkable(w, w.queries[q].link)
  {
    hide Inv;
    QueryLive(w, q, None);
    LinkLive(w, w.queries[q].trans.value, None);
    DefaultFound(w, w.queries[q].link, None);
  }

  lemma LeftCount(T: map<Addr, Trans>, reg: Option<Addr>, q: Addr, t: Addr)
    requires t in T
    ensures var R := Left(T, reg, q); t in R && R[t].count == T[t].count && R[t].handle == T[t].handle
  {
    hide Without;
  }

  lemma WalkStays(w: World, w1: World, l: Addr)
    requires Walkable(w, l) && w1.links == w.links && w1.trans.Keys == w.trans.Keys
    ensures Walkable(w1, l)
  {}

  lemma LeftOpen(Q: map<Addr, Query>, P: map<Addr, Query>, q: Addr, t: Addr)
    requires q in Q && Q[q].isOpen && Q[q].trans == Some(t) && P == Q[q := Q[q].(trans := None, reg := None)]
    ensures |OpenOn(P, t)| == |OpenOn(Q, t)| - 1
  {
    assert OpenOn(P, t) == OpenOn(Q, t) - {q};
  }

  lemma ExecutionLeaks(w: World, q: Addr, input: Input)
    requires Inv(w, None) && !w.wrapped && q in w.queries && Executable(w, q, input) &&
             !FetchedFirst(w, Execute(q, input))
    ensures !Exact(Exec(w, q, input, NO).1)
  {
    hide Inv, EnsureDefault, Bind, Exact;
    BindIs(w, q, input, None);
    RefusedRehome(w, q, input.dflt);
  }

  /** The counters stay exact through a call, whatever the server answers, if and only if the call meets the
      promise: it does not free an open, unfetched one-shot result, and does not execute one whose ended
      default transaction would first have to be started again. */
  lemma StepExact(w: World, op: Op)
    requires Inv(w, None) && w.rules.strict && !w.wrapped && Accepted(w, op) && Careful(w, op) && KeepsBlock(w, op)
    ensures (forall net :: Exact(Step(w, op, net))) <==> FetchedFirst(w, op)
  {
    hide Inv, Step, Exact, Careful, KeepsBlock;
    if FetchedFirst(w, op) {
      forall net ensures Exact(Step(w, op, net)) {
        StepKeeps(w, op, net);
        StrictIsExact(Step(w, op, net));
      }
    } else {
      StepLeaks(w, op);
    }
  }

  lemma StepLeaks(w: World, op: Op)
    requires Inv(w, None) && !w.wrapped && Accepted(w, op) && Careful(w, op) && !FetchedFirst(w, op)
    ensures !Exact(Step(w, op, NO))
  {
    hide Inv, Exec, FreeQuery, BatchFree, OpenOn, Executable, Settled, Bind, QueryOnLink;
    match op {
      case Execute(q, input) => ExecutionLeaks(w, q, input);
      case Free(q) =>
        QueryLive(w, q, None);
        UnfetchedLeaks(w, q, w.queries[q].trans.value, NO);
      case FreeBatch(b, last) => BatchLeaks(w, b, NO);
    }
  }

  // ------------------------------------------------------------ parameter blocks

  /** A call to fbird_trans leaves every transaction on a block it stored if and only if the modifiers behind
      the link leave the block that the link has taken. */
  lemma LegacyStartExact(w: World, args: seq<LegacyTrans.Arg>, fallback: Addr, build: LegacyTrans.Builder,
                         junk: LegacyTrans.Buffer)
    requires Inv(w, None) && LegacyTrans.Asked(args, fallback, build, junk).Some? &&
             LegacyTrans.Asked(args, fallback, build, junk).value.l in w.links
    ensures var r := Step(w, StartLegacy(args, fallback, build, junk), YES);
            && w.next in r.trans && r.trans[w.next].handle.Some?
            && (r.trans[w.next].handle.value.tpb == r.trans[w.next].tpb <==> LegacyTrans.Respected(args, build, junk))
  {
    hide Inv, LegacyTrans.Asked, LegacyTrans.Respected;
    LegacyTrans.StoredIsStarted(args, fallback, build, junk);
  }

  /** In every run every live handle of a transaction the run is faithful to is on the block stored: of one made
      by fbird_trans_start in any run, and of one made by fbird_trans whose modifiers leave the block. */
  lemma FaithfulRuns(rules: Rules, ops: seq<Op>, net: Net, t: Addr)
    requires t in rules.faithful && CarefulRun(Empty(rules), ops, net)
    ensures var r := Run(Empty(rules), ops, net);
            t in r.trans && r.trans[t].handle.Some? ==> r.trans[t].handle.value.tpb == r.trans[t].tpb
  {
    hide Inv, Run;
    EmptyInv(rules);
    RunsAreSafe(Empty(rules), ops, net);
    RunRules(Empty(rules), ops, net);
    var r := Run(Empty(rules), ops, net);
    if t in r.trans { BlockIsStored(r, t, net, None); }
  }

  lemma {:induction false} RunRules(w: World, ops: seq<Op>, net: Net)
    requires Inv(w, None) && CarefulRun(w, ops, net)
    ensures Run(w, ops, net).rules == w.rules
    decreases |ops|
  {
    hide Inv, Step;
    if ops != [] {
      StepKeeps(w, ops[0], net);
      RunRules(Step(w, ops[0], net), ops[1..], net);
    }
  }
}
