/** No orphaned retention: in a strict run, the locks that a retaining commit or rollback has left on an explicit
    transaction always come with the mark, and the mark with a query or batch whose going will release them, except
    after exactly these: an accepted retaining rollback without the mark, the freeing of the last batch, and a
    release that the server refuses. */
module Retention {
  import opened State
  import opened Transactions
  import opened Queries
  import opened Steps
  import opened Invariant
  import opened TransactionsKeep
  import opened StructureKeeps
  import opened QueriesKeep
  import opened ExecKeeps
  import opened StepsKeep
  import opened Outcomes
  import opened Cascade
  import opened QueryCall
  import opened RetentionHolds
  import opened LastRelease

  // ------------------------------------------------------------ what the exceptions mean

  ghost const NONE: Spared := Spared(iset{}, ALL, ALL)

  lemma ReleasedIs(w: World)
    ensures Released(w) <==> Held(w, NONE)
  {
    if !w.wrapped {
      forall t | t in w.trans
        ensures HeldTrans(w.trans[t], t, NONE) <==> (Retains(w.trans[t]) ==> w.trans[t].retain && Enrolls(w.trans[t]))
      { AnchoredByAny(w.trans[t]); }
    }
  }

  lemma AnchoredByAny(tr: Trans)
    ensures Anchored(tr, ALL) <==> Enrolls(tr)
  {
    if tr.queries != [] { assert tr.queries[0] in ALL; }
  }

  /** The queries that are there now stay. */
  ghost function Standing(w: World): Spared { Spared(iset{}, ALL, iset x: Addr | Earlier(x, w.next)) }

  predicate Earlier(x: Addr, next: nat) { x < next }

  lemma ReleasedStands(w: World)
    requires Released(w) && Inv(w, None)
    ensures Held(w, Standing(w)) && FreshFreeable(w.next, Standing(w))
  {
    forall t | t in w.trans && w.trans[t].queries != [] ensures w.trans[t].queries[0] < w.next {
      assert RegistryOk(w.trans[t], t, w.queries);
    }
  }

  // ------------------------------------------------------------ freeing a batch

  /** Freeing batch `b` leaves nobody to release its transaction: that one is explicit, started and marked, `b`
      is its only batch, and every query on it goes with the query of `b` if `b` holds the last reference. */
  ghost predicate BatchOrphans(w: World, b: Addr, last: bool) {
    b in w.batches && w.batches[b].trans.Some? && w.batches[b].trans.value in w.trans &&
    var (q, tr) := (w.batches[b].query, w.trans[w.batches[b].trans.value]);
    && Started(tr) && tr.retain && tr.batches == [b]
    && forall x :: x in tr.queries ==> last && q in w.queries && Under(w.queries, x, q)
  }

  function Lighter(tr: Trans, b: Addr): Trans { tr.(batches := Without(tr.batches, b)) }

  lemma RemoveBatchIs(w: World, b: Addr, t: Addr)
    requires b in w.batches && t in w.trans && w.batches[b].reg == Some(t)
    ensures RemoveBatch(w, b) == w.(batches := w.batches - {b}, trans := w.trans[t := Lighter(w.trans[t], b)])
  {}

  /** A list without its only element is empty, and no other is. */
  lemma OnlyElement<T>(s: seq<T>, x: T)
    requires x in s
    ensures Without(s, x) == [] <==> s == [x]
  {}

  /** The batch and its transaction before and after the query of the batch has been freed. */
  lemma BatchStays(w: World, b: Addr, net: Net)
    requires Inv(w, None) && b in w.batches && Fetched(w, w.batches[b].query)
    ensures var w1 := FreeQuery(w, w.batches[b].query, net);
            && Inv(w1, None) && Removed(w.queries, w1.queries, w.batches[b].query, true)
            && b in w1.batches && w1.batches[b].reg == w.batches[b].reg && w1.batches[b].trans == w.batches[b].trans
            && w1.wrapped == w.wrapped
  {
    hide Inv, FreeTree, Removed;
    FreeQueryKeeps(w, w.batches[b].query, net, None);
    FreeRemoves(w, w.batches[b].query, net, None);
    TreeQuiet(w, w.batches[b].query, true, w.next, net);
  }

  lemma BatchOf(w: World, b: Addr)
    requires Inv(w, None) && b in w.batches
    ensures w.batches[b].trans == w.batches[b].reg
    ensures w.batches[b].reg.Some? ==> w.batches[b].reg.value in w.trans && b in w.trans[w.batches[b].reg.value].batches
  {
    assert BatchEnrolled(w.trans, w.batches[b], b);
  }

  /** With the query out of the way, only the transaction of the batch is concerned. */
  lemma RemovalEnlists(w: World, b: Addr, t: Addr)
    requires Enlisted(w) && !w.wrapped && b in w.batches && w.batches[b].reg == Some(t) && t in w.trans
    ensures Enlisted(RemoveBatch(w, b)) <==>
              (Started(w.trans[t]) && w.trans[t].retain ==> Enrolls(Lighter(w.trans[t], b)))
  {
    hide Without, RemoveBatch, Enrolls;
    RemoveBatchIs(w, b, t);
    assert RemoveBatch(w, b).trans[t] == Lighter(w.trans[t], b);
  }

  lemma Unlisted(w: World, b: Addr)
    requires Enlisted(w) && b in w.batches && w.batches[b].reg.None?
    ensures Enlisted(RemoveBatch(w, b))
  {}

  /** Removing a batch changes neither locks nor marks. */
  lemma RemovalLabels(w: World, b: Addr)
    requires Inv(w, None) && b in w.batches
    ensures Labelled(RemoveBatch(w, b)) <==> Labelled(w)
  {
    hide Inv, Without, RemoveBatch, Labelled;
    BatchOf(w, b);
    if w.batches[b].reg.Some? { RemoveBatchIs(w, b, w.batches[b].reg.value); } else { UnlistedIs(w, b); }
    SameLabels(w, RemoveBatch(w, b));
  }

  lemma SameLabels(w: World, r: World)
    requires r.wrapped == w.wrapped && r.trans.Keys == w.trans.Keys
    requires forall u :: u in w.trans ==>
               r.trans[u].isDefault == w.trans[u].isDefault && r.trans[u].handle == w.trans[u].handle &&
               r.trans[u].retain == w.trans[u].retain
    ensures Labelled(r) <==> Labelled(w)
  {}

  lemma UnlistedIs(w: World, b: Addr)
    requires b in w.batches && w.batches[b].reg.None?
    ensures Same(RemoveBatch(w, b).trans, w.trans) && RemoveBatch(w, b).wrapped == w.wrapped
  {}

  lemma NoTransNoOrphan(w: World, b: Addr, last: bool)
    requires b in w.batches && w.batches[b].trans.None?
    ensures !BatchOrphans(w, b, last)
  {}

  lemma WithoutQuery(w: World, b: Addr, last: bool, t: Addr)
    requires b in w.batches && w.batches[b].trans == Some(t) && t in w.trans && b in w.trans[t].batches
    requires !(last && w.batches[b].query in w.queries)
    ensures (Started(w.trans[t]) && w.trans[t].retain ==> Enrolls(Lighter(w.trans[t], b))) <==>
              !BatchOrphans(w, b, last)
  {
    hide Without;
    OnlyElement(w.trans[t].batches, b);
    if w.trans[t].queries != [] { assert w.trans[t].queries[0] in w.trans[t].queries; }
  }

  lemma AfterQuery(w: World, w1: World, b: Addr, t: Addr, net: Net)
    requires Inv(w, None) && Inv(w1, None) && b in w.batches && w.batches[b].trans == Some(t) &&
             w.batches[b].query in w.queries
    requires t in w.trans && t in w1.trans && b in w.trans[t].batches && b in w1.trans[t].batches
    requires w1 == FreeQuery(w, w.batches[b].query, net) && Removed(w.queries, w1.queries, w.batches[b].query, true)
    ensures (Started(w1.trans[t]) && w1.trans[t].retain ==> Enrolls(Lighter(w1.trans[t], b))) <==>
              !BatchOrphans(w, b, true)
  {
    hide Inv, Without, FreeTree, Removed;
    OnlyElement(w1.trans[t].batches, b);
    ListLeft(w, w1, w.batches[b].query, t);
    if !w.trans[t].isDefault { TreeCarries(w, w.batches[b].query, true, w.next, net, t); }
    else { TreeQuiet(w, w.batches[b].query, true, w.next, net); }
  }

  /** The batch paths do not call the release: whatever the server answers, freeing a batch leaves every mark with
      somebody to release it if and only if it does not orphan its transaction. */
  lemma BatchFreeOrphans(w: World, b: Addr, last: bool, net: Net)
    requires Enlisted(w) && Inv(w, None) && !w.wrapped && w.rules.strict && FetchedFirst(w, FreeBatch(b, last)) &&
             b in w.batches
    ensures Enlisted(BatchFree(w, b, last, net)) <==> !BatchOrphans(w, b, last)
  {
    hide Inv, Enlisted, FreeQuery, RemoveBatch, BatchOrphans, Enrolls, Started;
    BatchOf(w, b);
    var (q, t) := (w.batches[b].query, w.batches[b].reg);
    if last && q in w.queries {
      BatchStays(w, b, net);
      FreeEnlists(w, q, net);
      var w1 := FreeQuery(w, q, net);
      BatchOf(w1, b);
      if t.Some? {
        RemovalEnlists(w1, b, t.value);
        AfterQuery(w, w1, b, t.value, net);
      } else { Unlisted(w1, b); NoTransNoOrphan(w, b, last); }
    } else if t.Some? {
      RemovalEnlists(w, b, t.value);
      WithoutQuery(w, b, last, t.value);
    } else { Unlisted(w, b); NoTransNoOrphan(w, b, last); }
  }

  /** The query that goes with batch `b`, if any, is the last of a transaction with locks. */
  ghost predicate BatchLast(w: World, b: Addr, last: bool) {
    b in w.batches && last && w.batches[b].query in w.queries && LastGoes(w, w.batches[b].query)
  }

  lemma BatchFreeReleases(w: World, b: Addr, last: bool, net: Net)
    requires Released(w) && Inv(w, None) && !w.wrapped && w.rules.strict && FetchedFirst(w, FreeBatch(b, last)) &&
             b in w.batches
    ensures Released(BatchFree(w, b, last, net)) <==>
              !BatchOrphans(w, b, last) && (BatchLast(w, b, last) ==> net(w.tick))
  {
    hide Inv, Enlisted, Labelled, Released, FreeQuery, RemoveBatch, BatchOrphans, LastGoes;
    var q := w.batches[b].query;
    ReleasedParts(w);
    BatchFreeOrphans(w, b, last, net);
    ReleasedParts(BatchFree(w, b, last, net));
    if last && q in w.queries {
      BatchStays(w, b, net);
      FreeEnlists(w, q, net);
      FreeReleases(w, q, net);
      ReleasedParts(FreeQuery(w, q, net));
      RemovalLabels(FreeQuery(w, q, net), b);
    } else { RemovalLabels(w, b); }
  }

  // ------------------------------------------------------------ a retaining rollback without the mark

  /** The server accepts a retaining rollback, and before it the restart of a transaction that has ended. */
  predicate Accepts(w: World, t: Addr, net: Net) {
    t in w.trans && if w.trans[t].handle.Some? then net(w.tick) else net(w.tick) && net(w.tick + 1) && net(w.tick + 2)
  }

  /** It keeps locks without the mark, just when the server accepts it. */
  lemma UnmarkedLoses(w: World, t: Addr, net: Net)
    requires Released(w) && Inv(w, None) && Unmarked(w, t, RollbackRet)
    ensures Released(TransEnd(w, t, RollbackRet, net).1) <==> w.wrapped || !Accepts(w, t, net)
  {
    hide Inv, Released, EndSwitch, RestartFromTpb, SameLayout, OnlyTrans, NothingToRetain, Put, Retains;
    LinkLive(w, t, None);
    if w.trans[t].handle.Some? { SoftLoses(w, t, net); }
    else {
      RestartPut(w, t, net);
      SamePlaceRetains(w, t);
      TicksRelease(w);
      FreshReleased(w, t);
      PutIs(w, t, w.trans[t].(handle := Some(Handle(w.trans[t].tpb, [], false)), retain := false), w.durable,
            w.tick + 2);
      if net(w.tick) && net(w.tick + 1) { SoftLoses(RestartFromTpb(w, t, net).1, t, net); }
    }
  }

  lemma PutIs(w: World, t: Addr, tr: Trans, durable: seq<Work>, tick: nat)
    ensures var r := Put(w, t, tr, durable, tick);
            t in r.trans && Same(r.trans[t], tr) && r.tick == tick && r.wrapped == w.wrapped
  {}

  lemma TicksRelease(w: World)
    requires Released(w)
    ensures forall k: nat :: Released(w.(tick := k))
  {}

  lemma FreshReleased(w: World, t: Addr)
    requires Released(w) && t in w.trans
    ensures Released(Put(w, t, w.trans[t].(handle := Some(Handle(w.trans[t].tpb, [], false)), retain := false),
                         w.durable, w.tick + 2))
  {}

  lemma SamePlaceRetains(w: World, t: Addr)
    requires t in w.trans
    ensures forall h :: NothingToRetain(w.trans[t].(handle := h, retain := false)) == NothingToRetain(w.trans[t])
  {}

  lemma SoftLoses(w: World, t: Addr, net: Net)
    requires Released(w) && t in w.trans && Started(w.trans[t]) && !w.trans[t].retain && !NothingToRetain(w.trans[t])
    ensures Released(EndSwitch(w, t, RollbackRet, net).1) <==> w.wrapped || !net(w.tick)
  {
    hide EndSwitch, NothingToRetain;
    SoftRollbackIs(w, t, net);
    var r := EndSwitch(w, t, RollbackRet, net).1;
    if net(w.tick) { assert t in r.trans && Retains(r.trans[t]) && !r.trans[t].retain; }
  }

  // ------------------------------------------------------------ steps

  /** A retaining rollback on a transaction without the mark. */
  predicate UnmarkedEnd(w: World, op: Op) { op.End? && Unmarked(w, op.t, op.mode) }

  ghost predicate Orphans(w: World, op: Op) { op.FreeBatch? && BatchOrphans(w, op.b, op.last) }

  /** The call frees the last query of a transaction with locks, so that the server is asked to release them. */
  ghost predicate Asks(w: World, op: Op) {
    match op
    case Free(q) => LastGoes(w, q)
    case FreeBatch(b, last) => BatchLast(w, b, last)
    case _ => false
  }

  /** The three ways: an accepted retaining rollback without the mark, a batch that orphans its transaction, and
      the last query of a transaction with locks freed while the server refuses the next call. */
  ghost predicate Loses(w: World, op: Op, net: Net) {
    || (UnmarkedEnd(w, op) && Accepts(w, op.t, net))
    || Orphans(w, op)
    || (Asks(w, op) && !net(w.tick))
  }

  /** For every server: a call keeps every retention with somebody to release it, if and only if it is none of the
      three. */
  lemma StepReleasesExactly(w: World, op: Op, net: Net)
    requires Released(w) && Inv(w, None) && w.rules.strict && !w.wrapped && Accepted(w, op) && Careful(w, op) &&
             FetchedFirst(w, op)
    ensures Released(Step(w, op, net)) <==> !Loses(w, op, net)
  {
    hide Inv, Released, Perform, Careful, FetchedFirst, Accepted, LastGoes, BatchLast, BatchOrphans, Unmarked, Accepts;
    match op {
      case Free(q) =>
        FreeAccepted(w, op);
        FreeReleases(w, q, net);
        FreesIs(w, q, net);
      case FreeBatch(b, last) =>
        FreeAccepted(w, op);
        BatchFreeReleases(w, b, last, net);
        FreesBatchIs(w, b, last, net);
      case End(t, mode) =>
        if UnmarkedEnd(w, op) {
          RollbackOnly(w, t, mode);
          UnmarkedLoses(w, t, net);
          EndsIs(w, t, mode, net);
        } else { EndReleases(w, op, net); }
      case _ => OtherReleases(w, op, net);
    }
  }

  /** Once a counter has wrapped around nothing is claimed. */
  lemma StepWrapped(w: World, op: Op, net: Net)
    requires w.wrapped && Inv(w, None) && w.rules.strict && Accepted(w, op) && Careful(w, op) && FetchedFirst(w, op)
    ensures Released(Step(w, op, net))
  {
    hide Inv, Perform, Careful, FetchedFirst, Accepted, Unmarked, Accepts, FreeTree, RemoveBatch;
    match op {
      case Free(q) =>
        TreeQuiet(w, q, true, w.next, net);
        FreesIs(w, q, net);
      case FreeBatch(b, last) =>
        FreeAccepted(w, op);
        TreeQuiet(w, w.batches[b].query, true, w.next, net);
        RemovalWraps(w, b);
        RemovalWraps(FreeQuery(w, w.batches[b].query, net), b);
        FreesBatchIs(w, b, last, net);
      case End(t, mode) =>
        if UnmarkedEnd(w, op) {
          RollbackOnly(w, t, mode);
          UnmarkedLoses(w, t, net);
          EndsIs(w, t, mode, net);
        } else { EndReleases(w, op, net); }
      case _ => OtherReleases(w, op, net);
    }
  }

  lemma RemovalWraps(w: World, b: Addr)
    ensures RemoveBatch(w, b).wrapped == w.wrapped
  {}

  /** A call that is refused changes nothing, and after a wrap-around nothing is claimed. */
  lemma StepIdle(w: World, op: Op, net: Net)
    requires Inv(w, None) && w.rules.strict && Careful(w, op) && FetchedFirst(w, op) && (w.wrapped || !Accepted(w, op))
    ensures Released(w) ==> Released(Step(w, op, net))
    ensures Enlisted(w) ==> Enlisted(Step(w, op, net))
  {
    hide Inv, Released, Enlisted, Labelled, Perform, Careful, FetchedFirst, Accepted;
    if Accepted(w, op) {
      StepWrapped(w, op, net);
      ReleasedParts(Step(w, op, net));
    }
  }

  lemma FreeAccepted(w: World, op: Op)
    requires Accepted(w, op) && FetchedFirst(w, op)
    ensures op.Free? ==> Fetched(w, op.q)
    ensures op.FreeBatch? ==> op.b in w.batches
  {}

  lemma RollbackOnly(w: World, t: Addr, mode: Mode)
    requires Unmarked(w, t, mode)
    ensures mode == RollbackRet
  {}

  lemma FreesIs(w: World, q: Addr, net: Net)
    ensures Perform(w, Free(q), net) == FreeQuery(w, q, net)
  {}

  lemma FreesBatchIs(w: World, b: Addr, last: bool, net: Net)
    ensures Perform(w, FreeBatch(b, last), net) == BatchFree(w, b, last, net)
  {}

  lemma EndsIs(w: World, t: Addr, mode: Mode, net: Net)
    ensures Perform(w, End(t, mode), net) == TransEnd(w, t, mode, net).1
  {}

  lemma EndReleases(w: World, op: Op, net: Net)
    requires Released(w) && Inv(w, None) && w.rules.strict && Careful(w, op) && FetchedFirst(w, op)
    requires op.End? && !UnmarkedEnd(w, op) && Accepted(w, op)
    ensures Released(Perform(w, op, net))
  {
    hide Inv, Released, Held, Perform, Careful, NONE, FetchedFirst, Accepted;
    ReleasedIs(w);
    NoneCovers(w, op, net);
    PerformHolds(w, op, net, NONE);
    ReleasedIs(Perform(w, op, net));
  }

  lemma OtherReleases(w: World, op: Op, net: Net)
    requires Released(w) && Inv(w, None) && w.rules.strict && Careful(w, op) && FetchedFirst(w, op)
    requires !op.End? && !op.Free? && !op.FreeBatch? && Accepted(w, op)
    ensures Released(Perform(w, op, net))
  {
    hide Inv, Released, Held, Perform, Careful, Standing, FetchedFirst, Accepted;
    ReleasedStands(w);
    StandingCovers(w, op, net);
    PerformHolds(w, op, net, Standing(w));
    HeldReleased(Perform(w, op, net), Standing(w));
  }

  lemma NoneCovers(w: World, op: Op, net: Net)
    requires op.End? && !UnmarkedEnd(w, op)
    ensures Covered(w, op, net, NONE)
  {
    assert forall x: Addr :: x in ALL;
  }

  lemma StandingCovers(w: World, op: Op, net: Net)
    requires !op.Free? && !op.FreeBatch? && !op.End? && FreshFreeable(w.next, Standing(w))
    ensures Covered(w, op, net, Standing(w)) && Standing(w).locks == iset{}
  {
    assert forall x: Addr :: x in ALL;
  }

  /** For every server: a call leaves every mark with somebody to release it, if and only if it frees no batch that
      orphans its transaction. */
  lemma StepEnlistsExactly(w: World, op: Op, net: Net)
    requires Enlisted(w) && Inv(w, None) && w.rules.strict && !w.wrapped && Accepted(w, op) && Careful(w, op) &&
             FetchedFirst(w, op)
    ensures Enlisted(Step(w, op, net)) <==> !Orphans(w, op)
  {
    hide Inv, Enlisted, Held, Perform, Careful, FetchedFirst, Accepted, BatchOrphans, LOOSE, Covered;
    if op.FreeBatch? {
      FreeAccepted(w, op);
      BatchFreeOrphans(w, op.b, op.last, net);
      FreesBatchIs(w, op.b, op.last, net);
    } else {
      EnlistedIs(w);
      LooseCovers(w, op, net);
      PerformHolds(w, op, net, LOOSE);
      EnlistedIs(Perform(w, op, net));
    }
  }

  lemma LooseCovers(w: World, op: Op, net: Net)
    requires !op.FreeBatch?
    ensures Covered(w, op, net, LOOSE)
  {
    hide Stale;
    assert forall x: Addr :: x in ALL;
  }

  // ------------------------------------------------------------ runs

  /** No call of the run is one of the three, as long as no counter has wrapped. */
  ghost predicate Mindful(w: World, ops: seq<Op>, net: Net)
    decreases |ops|
  {
    ops != [] ==>
      && (!w.wrapped && Accepted(w, ops[0]) ==> !Loses(w, ops[0], net))
      && Mindful(Step(w, ops[0], net), ops[1..], net)
  }

  /** No call of the run frees a batch that orphans its transaction. */
  ghost predicate KeepsBatches(w: World, ops: seq<Op>, net: Net)
    decreases |ops|
  {
    ops != [] ==>
      && (!w.wrapped && Accepted(w, ops[0]) ==> !Orphans(w, ops[0]))
      && KeepsBatches(Step(w, ops[0], net), ops[1..], net)
  }

  /** `Released` between any two calls, and at the end. */
  ghost predicate AlwaysReleased(w: World, ops: seq<Op>, net: Net)
    decreases |ops|
  {
    Released(w) && (ops != [] ==> AlwaysReleased(Step(w, ops[0], net), ops[1..], net))
  }

  ghost predicate AlwaysEnlisted(w: World, ops: seq<Op>, net: Net)
    decreases |ops|
  {
    Enlisted(w) && (ops != [] ==> AlwaysEnlisted(Step(w, ops[0], net), ops[1..], net))
  }

  /** Over whole runs and for every server: a live explicit handle with retained locks always has the mark, and a
      query or a batch enrolled whose going will release it, if and only if the run avoids the three ways. */
  lemma {:induction false} NoOrphanedRetention(w: World, ops: seq<Op>, net: Net)
    requires Released(w) && Inv(w, None) && w.rules.strict && CarefulRun(w, ops, net)
    ensures AlwaysReleased(w, ops, net) <==> Mindful(w, ops, net)
    ensures Mindful(w, ops, net) ==> Released(Run(w, ops, net))
    decreases |ops|
  {
    hide Inv, Released, Step, Accepted, Loses;
    if ops != [] {
      var w1 := Step(w, ops[0], net);
      StepKeeps(w, ops[0], net);
      if Accepted(w, ops[0]) && !w.wrapped { StepReleasesExactly(w, ops[0], net); } else { StepIdle(w, ops[0], net); }
      if Released(w1) { NoOrphanedRetention(w1, ops[1..], net); } else { LostNow(w1, ops[1..], net); }
    }
  }

  lemma LostNow(w: World, ops: seq<Op>, net: Net)
    requires !Released(w)
    ensures !AlwaysReleased(w, ops, net)
  {}

  /** Over whole runs and for every server: a marked explicit handle always has a query or a batch enrolled, if and
      only if the run frees no batch that orphans its transaction. */
  lemma {:induction false} MarkedIsEnlisted(w: World, ops: seq<Op>, net: Net)
    requires Enlisted(w) && Inv(w, None) && w.rules.strict && CarefulRun(w, ops, net)
    ensures AlwaysEnlisted(w, ops, net) <==> KeepsBatches(w, ops, net)
    ensures KeepsBatches(w, ops, net) ==> Enlisted(Run(w, ops, net))
    decreases |ops|
  {
    hide Inv, Enlisted, Step, Accepted, Orphans;
    if ops != [] {
      var w1 := Step(w, ops[0], net);
      StepKeeps(w, ops[0], net);
      if Accepted(w, ops[0]) && !w.wrapped { StepEnlistsExactly(w, ops[0], net); } else { StepIdle(w, ops[0], net); }
      if Enlisted(w1) { MarkedIsEnlisted(w1, ops[1..], net); } else { MissingNow(w1, ops[1..], net); }
    }
  }

  lemma MissingNow(w: World, ops: seq<Op>, net: Net)
    requires !Enlisted(w)
    ensures !AlwaysEnlisted(w, ops, net)
  {}

  // ------------------------------------------------------------ the mark means locks

  ghost const FIRM: Spared := Spared(ALL, iset{}, iset{})

  lemma MarkedIs(w: World)
    ensures Released(w) && Marked(w) ==> Held(w, FIRM)
    ensures Held(w, FIRM) ==> Marked(w)
  {
    if Held(w, FIRM) && !w.wrapped {
      forall t | t in w.trans && Started(w.trans[t]) && w.trans[t].retain ensures w.trans[t].handle.value.locks {
        assert HeldTrans(w.trans[t], t, FIRM);
      }
    }
  }

  lemma FirmCovers(w: World, op: Op, net: Net)
    requires !Stale(w, op) && !op.FreeBatch?
    ensures Covered(w, op, net, FIRM)
  {
    hide Stale;
  }

  lemma RemovalMarks(w: World, b: Addr)
    requires Marked(w)
    ensures Marked(RemoveBatch(w, b))
  {
    hide Without;
  }

  lemma BatchFreeMarks(w: World, b: Addr, last: bool, net: Net)
    requires Released(w) && Marked(w) && Inv(w, None) && w.rules.strict && FetchedFirst(w, FreeBatch(b, last)) &&
             b in w.batches
    ensures Marked(BatchFree(w, b, last, net))
  {
    hide Inv, Released, Marked, Held, FreeQuery, RemoveBatch, TreeFreeable, FIRM;
    RemovalMarks(w, b);
    if last && w.batches[b].query in w.queries {
      MarkedIs(w);
      FirmFree(w.queries, w.batches[b].query);
      FreeQueryHolds(w, w.batches[b].query, net, None, FIRM);
      MarkedIs(FreeQuery(w, w.batches[b].query, net));
      RemovalMarks(FreeQuery(w, w.batches[b].query, net), b);
    }
  }

  lemma FirmFree(Q: map<Addr, Query>, q: Addr)
    ensures TreeFreeable(Q, q, FIRM)
  {}

  lemma StepMarks(w: World, op: Op, net: Net)
    requires Released(w) && Marked(w) && Inv(w, None) && w.rules.strict && Careful(w, op) && FetchedFirst(w, op) &&
             !Stale(w, op)
    ensures Marked(Step(w, op, net))
  {
    hide Inv, Released, Marked, Held, Perform, Careful, FetchedFirst, Stale, FIRM, Covered, BatchFree;
    if Accepted(w, op) {
      if op.FreeBatch? { BatchStepMarks(w, op, net); }
      else {
        MarkedIs(w);
        FirmCovers(w, op, net);
        PerformHolds(w, op, net, FIRM);
        MarkedIs(Perform(w, op, net));
      }
    }
  }

  lemma BatchStepMarks(w: World, op: Op, net: Net)
    requires Released(w) && Marked(w) && Inv(w, None) && w.rules.strict && FetchedFirst(w, op) && Accepted(w, op) &&
             op.FreeBatch?
    ensures Marked(Perform(w, op, net))
  {
    hide Inv, Released, Marked, BatchFree;
    BatchFreeMarks(w, op.b, op.last, net);
  }

  // ------------------------------------------------------------ the DDL gate loses it

  /** A started transaction with the mark and without locks, and with the lists it had. */
  ghost predicate StaleLike(r: World, t: Addr, tr: Trans) {
    && t in r.trans && Started(r.trans[t]) && r.trans[t].retain && !r.trans[t].handle.value.locks
    && r.trans[t].queries == tr.queries && r.trans[t].batches == tr.batches
  }

  /** The query is at the gate: explicit DDL on a started, marked `t`, its cursor closed, its parameters bound. */
  ghost predicate AtGate(w: World, q: Addr, t: Addr, input: Input) {
    && q in w.queries && t in w.trans && Started(w.trans[t]) && w.trans[t].retain &&
       (w.rules.autoDdl || w.trans[t].count > 0)
    && w.queries[q].kind.Ddl? && w.queries[q].explicit && w.queries[q].trans == Some(t) && !w.queries[q].isOpen
    && w.queries[q].link in w.links && Bind(w, q, input) == (true, w)
    && (w.queries[q].stmt.Some? ==> w.queries[q].stmt.value in w.stmts)
  }

  lemma GateLeaves(w: World, q: Addr, t: Addr, input: Input)
    requires AtGate(w, q, t, input)
    ensures var (ok, r) := DdlGate(w, q, YES);
            && ok && StaleLike(r, t, w.trans[t]) && r.wrapped == w.wrapped && Same(r.queries, w.queries) &&
               Same(r.links, w.links) && Same(r.stmts, w.stmts)
            && EnsureDefault(w, q, input.dflt, YES) == (true, w)
  {
    hide SameLayout, OnlyTrans;
  }

  /** The rest of the execution of DDL on an explicit transaction touches work, ticks and flags only. */
  lemma RestLeaves(w: World, q: Addr, t: Addr, tr: Trans, effect: Effect)
    requires StaleLike(w, t, tr) && q in w.queries && w.queries[q].kind.Ddl? && w.queries[q].explicit &&
             w.queries[q].trans == Some(t)
    requires !w.queries[q].isOpen && (w.queries[q].stmt.Some? ==> w.queries[q].stmt.value in w.stmts)
    ensures var (ran, w1) := RunStatement(w, q, effect, YES);
            && (ran <==> w.queries[q].stmt.Some?) && StaleLike(w1, t, tr) && Same(w1.queries, w.queries) &&
               w1.wrapped == w.wrapped
            && (ran ==> Finish(w1, q, YES) == (Done, Shut(w1, q, YES)))
  {
    hide Shut, SameLayout;
  }

  lemma ShutClosed(w: World, q: Addr, net: Net)
    requires q in w.queries && !w.queries[q].isOpen
    ensures var r := Shut(w, q, net);
            Same(r.trans, w.trans) && r.wrapped == w.wrapped && q in r.queries && !r.queries[q].isOpen &&
            r.queries[q].trans == w.queries[q].trans
  {
    hide SameLayout, OnlyFlags;
  }

  lemma PlainLeavesStale(w: World, q: Addr, t: Addr, input: Input)
    requires AtGate(w, q, t, input)
    ensures var (reply, r) := ExecPlain(w, q, input, YES);
            && StaleLike(r, t, w.trans[t]) && q in r.queries && !r.queries[q].isOpen && r.queries[q].trans == Some(t) &&
               r.wrapped == w.wrapped
            && reply == if w.queries[q].stmt.Some? then Done else Failure
  {
    hide Bind, EnsureDefault, DdlGate, RunStatement, Finish, Shut;
    GateLeaves(w, q, t, input);
    var w1 := DdlGate(w, q, YES).1;
    RestLeaves(w1, q, t, w.trans[t], input.effect);
    ShutClosed(RunStatement(w1, q, input.effect, YES).1, q, YES);
  }

  /** Closing the statement's own cursor first. */
  lemma ReexecAtGate(w: World, q: Addr, input: Input)
    requires Inv(w, None) && StaleExec(w, q, input) && Executable(w, q, input)
    ensures var w1 := CloseForReexec(w, q, YES);
            var t := w.queries[q].trans.value;
            AtGate(w1, q, t, input) && w1.wrapped == w.wrapped && w1.trans[t].queries == w.trans[t].queries &&
            w1.trans[t].batches == w.trans[t].batches
  {
    hide Inv, CloseForReexec, SameLayout, OnlyFlags, QueryOnLink;
    QueryLive(w, q, None);
    GateLink(w, q, input);
    ReexecIs(w, q, YES);
    BindIs(w, q, input, None);
    if w.queries[q].isOpen { ClosedAtGate(w, q, input); }
  }

  lemma ClosedAtGate(w: World, q: Addr, input: Input)
    requires StaleExec(w, q, input) && w.queries[q].isOpen && w.queries[q].link in w.links && Bind(w, q, input).1 == w
    requires w.queries[q].stmt.Some? ==> w.queries[q].stmt.value in w.stmts
    ensures var w1 := SetMore(Closed(w, q), q, false);
            var t := w.queries[q].trans.value;
            AtGate(w1, q, t, input) && w1.wrapped == w.wrapped && w1.trans[t].queries == w.trans[t].queries &&
            w1.trans[t].batches == w.trans[t].batches
  {
    hide SameLayout, OnlyFlags;
  }

  lemma GateLink(w: World, q: Addr, input: Input)
    requires Inv(w, None) && StaleExec(w, q, input) && Executable(w, q, input)
    ensures w.queries[q].link in w.links && (w.queries[q].stmt.Some? ==> w.queries[q].stmt.value in w.stmts)
  {
    hide Inv;
    QueryLive(w, q, None);
    BindIs(w, q, input, None);
  }

  lemma ExecLosesMark(w: World, q: Addr, input: Input)
    requires Inv(w, None) && StaleExec(w, q, input) && Executable(w, q, input)
    ensures var (reply, r) := Exec(w, q, input, YES);
            var t := w.queries[q].trans.value;
            && StaleLike(r, t, w.trans[t]) && q in r.queries && !r.queries[q].isOpen && r.queries[q].trans == Some(t) &&
               r.wrapped == w.wrapped
            && reply == if w.queries[q].stmt.Some? then Done else Failure
  {
    hide Inv, Bind, CloseForReexec, ExecPlain, Executable;
    ReexecAtGate(w, q, input);
    var (w1, t) := (CloseForReexec(w, q, YES), w.queries[q].trans.value);
    ReexecIdentity(w, q);
    PlainLeavesStale(w1, q, t, input);
  }

  lemma ReexecIdentity(w: World, q: Addr)
    requires q in w.queries
    ensures var w1 := CloseForReexec(w, q, YES);
            q in w1.queries && w1.queries[q].stmt == w.queries[q].stmt && w1.queries[q].kind == w.queries[q].kind
  {
    hide Shut;
  }

  /** A server that agrees prepares every statement with few enough columns. */
  lemma PrepareSucceeds(w: World, l: Addr, t: Addr, kind: Kind, form: Form)
    requires l in w.links && t in w.trans && w.trans[t].handle.Some? && form.columns <= MAX_COLUMNS &&
             w.next !in w.queries
    ensures Prepare(w, l, t, true, kind, form, YES).0 == Some(w.next)
  {
    hide FreeTree;
  }

  /** A one-shot call that gets to the gate. */
  lemma OnceLosesMark(w: World, on: Target, form: Form, input: Input)
    requires Released(w) && Inv(w, None) && !w.wrapped && w.rules.strict && Live(w, on) && !on.OnLink?
    requires OnceStale(w, on.t, Ddl, form, input)
    ensures !Marked(RunTarget(w, on, Ddl, form, input, YES))
  {
    hide Inv, Released, Prepare, Exec, FreeQuery, Settle, Marked, OnceStale, RunOnce;
    var t := on.t;
    OnceStarted(w, t, Ddl, form, input);
    LinkLive(w, t, None);
    FreshAddress(w, None);
    var l := if on.OnTrans? then w.trans[t].link.value else on.l;
    PrepareKeeps(w, l, t, true, Ddl, form, YES, None);
    PrepareSucceeds(w, l, t, Ddl, form);
    PreparedDrawn(w, l, t, true, Ddl, form, YES);
    var (q, w1) := Prepare(w, l, t, true, Ddl, form, YES);
    DrawnStale(w, w1, q.value, l, t, form, input);
    PreparedLosesMark(w, w1, q.value, l, t, input);
    OnceIs(w, l, t, form, input);
    assert RunTarget(w, on, Ddl, form, input, YES) == RunOnce(w, l, t, true, Ddl, form, input, YES);
  }

  lemma OnceStarted(w: World, t: Addr, kind: Kind, form: Form, input: Input)
    requires OnceStale(w, t, kind, form, input)
    ensures t in w.trans && w.trans[t].handle.Some? && form.columns <= MAX_COLUMNS && w.trans[t].retain
  {}

  lemma OnceIs(w: World, l: Addr, t: Addr, form: Form, input: Input)
    ensures RunOnce(w, l, t, true, Ddl, form, input, YES) ==
              var (q, w1) := Prepare(w, l, t, true, Ddl, form, YES);
              if q.None? then w1
              else
                var (reply, w2) := Exec(w1, q.value, input, YES);
                if reply.Failure? then FreeQuery(w2, q.value, YES)
                else Settle(QueryAutocommit(w2, q.value, l, t, true, reply, YES), q.value, reply, YES)
  {
    hide Prepare, Exec, FreeQuery, Settle, QueryAutocommit;
  }

  lemma DrawnStale(w: World, w1: World, q: Addr, l: Addr, t: Addr, form: Form, input: Input)
    requires Drawn(w, w1, q, t, form) && Prepared(w1, q, l, t, true, Ddl) && l in w1.links &&
             OnceStale(w, t, Ddl, form, input)
    ensures StaleExec(w1, q, input) && Executable(w1, q, input)
  {}

  lemma PreparedLosesMark(w: World, w1: World, q: Addr, l: Addr, t: Addr, input: Input)
    requires Released(w) && !w.wrapped && t in w.trans && Started(w.trans[t]) && w.trans[t].retain
    requires Inv(w1, None) && l in w1.links && StaleExec(w1, q, input) && Executable(w1, q, input) &&
             Prepared(w1, q, l, t, true, Ddl)
    requires t in w1.trans && w1.trans[t].queries == [q] + w.trans[t].queries &&
             w1.trans[t].batches == w.trans[t].batches && w1.rules.strict
    requires !w1.wrapped
    ensures var (reply, w2) := Exec(w1, q, input, YES);
            !Marked(if reply.Failure? then FreeQuery(w2, q, YES)
            else Settle(QueryAutocommit(w2, q, l, t, true, reply, YES), q, reply, YES))
  {
    hide Inv, Exec, FreeTree, StaleExec, Executable, Executed;
    ExecLosesMark(w1, q, input);
    WholeExecKeeps(w1, q, input, YES, None);
    var (reply, w2) := Exec(w1, q, input, YES);
    ExecutedIs(w1, reply, w2, q);
    FreedStale(w, w2, q, t);
    KeysOf(w1, reply, w2, q);
  }

  lemma KeysOf(w: World, reply: Reply, r: World, q: Addr)
    requires Executed(w, reply, r, q)
    ensures r.links.Keys == w.links.Keys
  {}

  /** The statement goes, something else stays enrolled, and so does the mark. */
  lemma FreedStale(w: World, w2: World, q: Addr, t: Addr)
    requires Released(w) && !w.wrapped && t in w.trans && Started(w.trans[t]) && w.trans[t].retain
    requires Inv(w2, None) && !w2.wrapped && t in w2.trans &&
             StaleLike(w2, t, w.trans[t].(queries := [q] + w.trans[t].queries))
    requires q in w2.queries && !w2.queries[q].isOpen && w2.queries[q].trans == Some(t) &&
             w2.queries[q].children == [] && w2.queries[q].parent.None?
    ensures !Marked(FreeQuery(w2, q, YES))
  {
    hide Inv, FreeTree;
    ClosedSettles(w2, q, t, YES);
    TreeQuiet(w2, q, true, w2.next, YES);
    assert Retains(w.trans[t]);
    assert Without([q] + w.trans[t].queries, q) == w.trans[t].queries;
    var r := FreeQuery(w2, q, YES);
    assert Started(r.trans[t]) && r.trans[t].retain && !r.trans[t].handle.value.locks;
  }

  lemma StaleLoses(w: World, op: Op)
    requires Released(w) && Inv(w, None) && !w.wrapped && w.rules.strict && Accepted(w, op) && Careful(w, op) &&
             Stale(w, op)
    ensures !Marked(Step(w, op, YES))
  {
    hide Inv, Released, Exec, RunTarget, OnceStale, StaleExec, Executable;
    match op {
      case Execute(q, input) =>
        StaleTrans(w, q, input);
        ExecLosesMark(w, q, input);
        LeftUnmarked(Exec(w, q, input, YES).1, w.queries[q].trans.value, w.trans[w.queries[q].trans.value]);
      case Once(on, kind, form, input) =>
        OnceDdl(w, on.t, kind, form, input);
        OnceLosesMark(w, on, form, input);
    }
  }

  lemma StaleTrans(w: World, q: Addr, input: Input)
    requires StaleExec(w, q, input)
    ensures q in w.queries && w.queries[q].trans.Some? && w.queries[q].trans.value in w.trans
  {}

  lemma OnceDdl(w: World, t: Addr, kind: Kind, form: Form, input: Input)
    requires OnceStale(w, t, kind, form, input)
    ensures kind == Ddl
  {}

  lemma LeftUnmarked(r: World, t: Addr, tr: Trans)
    requires StaleLike(r, t, tr) && !r.wrapped
    ensures !Marked(r)
  {}

  /** Whatever the server answers, the mark goes on meaning locks if and only if the call does not let the DDL gate
      commit and restart a marked transaction. */
  lemma StepMarksExactly(w: World, op: Op)
    requires Released(w) && Marked(w) && Inv(w, None) && w.rules.strict && !w.wrapped
    requires Accepted(w, op) && Careful(w, op) && FetchedFirst(w, op)
    ensures (forall net :: Marked(Step(w, op, net))) <==> !Stale(w, op)
  {
    hide Inv, Released, Marked, Step, Careful, FetchedFirst, Stale, Accepted;
    if Stale(w, op) { StaleLoses(w, op); }
    else { forall net ensures Marked(Step(w, op, net)) { StepMarks(w, op, net); } }
  }
}
