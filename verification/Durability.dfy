/** Whole-run durability: what one explicit transaction has pending becomes durable only where its own
    caller asks for it. */
module Durability {
  import opened State
  import opened Transactions
  import opened Queries
  import opened Steps
  import LegacyTrans
  import opened Invariant
  import opened TransactionsKeep
  import opened StructureKeeps
  import opened LinksKeep
  import opened QueriesKeep
  import opened ExecKeeps
  import opened StepsKeep
  import opened Outcomes
  import opened Cascade
  import opened Bystanders

  /** How far the mark that a commit_ret leaves has got: not set, possibly set, or used up by an idle
      release. */
  datatype Mark = Unset | Allowed | Spent

  ghost predicate Emptied(tr: Trans) { tr.queries == [] && tr.batches == [] && tr.count == 0 && !tr.retain }

  /** Every query that uses `t` is in its registry. */
  ghost predicate Listed(w: World, t: Addr) {
    t in w.trans ==> forall q :: q in w.queries && w.queries[q].trans == Some(t) ==> q in w.trans[t].queries
  }

  /** Work `x` is not durable and nobody but the explicit transaction `t` can make it so; once the mark of
      `t` is spent, `t` is idle and not marked. */
  ghost predicate Aside(w: World, x: Work, t: Addr, m: Mark) {
    && x < w.next && t < w.next && Listed(w, t)
    && (t in w.trans ==> !w.trans[t].isDefault && (m.Unset? ==> !w.trans[t].retain))
    && (m.Spent? ==> t in w.trans && Emptied(w.trans[t]))
    && (!m.Spent? ==> x !in w.durable && forall u :: u in w.trans && u != t ==> x !in Pending(w.trans, u))
  }

  /** What freeing a query may do: nothing to `x`, or an idle release of a marked `t`. */
  ghost predicate Freed(w: World, x: Work, t: Addr, m: Mark) {
    Aside(w, x, t, m) || (m.Allowed? && Aside(w, x, t, Spent))
  }

  // ------------------------------------------------------------ transactions

  function HandleWork(h: Option<Handle>): seq<Work> { if h.Some? then h.value.pending else [] }

  /** A changed struct is no threat while it stays what it was and only `t` may have `x` pending. */
  lemma SetSpares(w: World, u: Addr, tr: Trans, x: Work, t: Addr, m: Mark)
    requires Aside(w, x, t, m) && u in w.trans && tr.isDefault == w.trans[u].isDefault
    requires u == t ==> tr.queries == w.trans[t].queries && (m.Unset? ==> !tr.retain) && (m.Spent? ==> Emptied(tr))
    requires u != t && !m.Spent? ==> x !in HandleWork(tr.handle)
    ensures Aside(SetT(w, u, tr), x, t, m)
  {
    if !m.Spent? {
      forall v | v in w.trans && v != t ensures x !in Pending(SetT(w, u, tr).trans, v) {
        assert x !in Pending(w.trans, v);
      }
    }
  }

  lemma AsideOf(w: World, u: Addr, x: Work, t: Addr, m: Mark)
    requires Aside(w, x, t, m) && u in w.trans
    ensures u == t ==> !w.trans[u].isDefault && (m.Unset? ==> !w.trans[u].retain) && (m.Spent? ==> Emptied(w.trans[u]))
    ensures u != t && !m.Spent? ==> x !in HandleWork(w.trans[u].handle)
  {
    assert u != t && !m.Spent? ==> x !in Pending(w.trans, u);
  }

  lemma AsideIs(w: World, x: Work, t: Addr, m: Mark)
    requires Aside(w, x, t, m)
    ensures x < w.next && t < w.next && Listed(w, t) && (m.Spent? ==> t in w.trans && Emptied(w.trans[t]))
  {}

  /** Counters, ticks, faults and more durable work. */
  lemma FaultSpares(w: World, x: Work, t: Addr, m: Mark)
    requires Aside(w, x, t, m)
    ensures Aside(Fault(w), x, t, m) && Aside(Tick(w), x, t, m) && Aside(w.(wrapped := true), x, t, m) &&
            Aside(w.(next := w.next + 1), x, t, m)
  {}

  lemma DurableSpares(w: World, more: seq<Work>, x: Work, t: Addr, m: Mark)
    requires Aside(w, x, t, m) && (!m.Spent? ==> x !in more)
    ensures Aside(w.(durable := w.durable + more), x, t, m)
  {}

  lemma CommitSpares(w: World, u: Addr, net: Net, x: Work, t: Addr, m: Mark)
    requires Aside(w, x, t, m) && u != t
    ensures Aside(TryCommit(w, u, net).1, x, t, m)
  {
    hide Aside, SameLayout, OnlyTrans;
    FaultSpares(w, x, t, m);
    if u in w.trans && w.trans[u].handle.Some? {
      AsideOf(w, u, x, t, m);
      var h := w.trans[u].handle.value;
      DurableSpares(Tick(w), h.pending, x, t, m);
      SetSpares(Tick(w).(durable := w.durable + h.pending), u, w.trans[u].(handle := Some(h.(pending := []))), x, t, m);
    }
  }

  lemma RollbackSpares(w: World, u: Addr, net: Net, x: Work, t: Addr, m: Mark)
    requires Aside(w, x, t, m)
    ensures Aside(TryRollback(w, u, net).1, x, t, m)
  {
    hide Aside, SameLayout, OnlyTrans;
    FaultSpares(w, x, t, m);
    if u in w.trans && w.trans[u].handle.Some? {
      AsideOf(w, u, x, t, m);
      SetSpares(Tick(w), u, w.trans[u].(handle := Some(w.trans[u].handle.value.(pending := []))), x, t, m);
    }
  }

  lemma HandleSpares(w: World, u: Addr, tpb: seq<Byte>, net: Net, x: Work, t: Addr, m: Mark)
    requires Aside(w, x, t, m)
    ensures Aside(FreeHandle(w, u), x, t, m) && Aside(KeepLocks(w, u), x, t, m) &&
            Aside(Start(w, u, tpb, net).1, x, t, m)
  {
    hide Aside, SameLayout, OnlyTrans;
    FaultSpares(w, x, t, m);
    if u in w.trans {
      AsideOf(w, u, x, t, m);
      SetSpares(w, u, w.trans[u].(handle := None), x, t, m);
      SetSpares(Tick(w), u, w.trans[u].(handle := Some(Handle(tpb, [], false))), x, t, m);
      if w.trans[u].handle.Some? {
        SetSpares(w, u, w.trans[u].(handle := Some(w.trans[u].handle.value.(locks := true))), x, t, m);
      }
    }
  }

  lemma RestartSpares(w: World, u: Addr, net: Net, x: Work, t: Addr, m: Mark)
    requires Aside(w, x, t, m)
    ensures Aside(RestartFromTpb(w, u, net).1, x, t, m)
  {
    hide Aside, OnlyTrans, Start;
    FaultSpares(w, x, t, m);
    FaultSpares(Tick(w), x, t, m);
    if u in w.trans {
      HandleSpares(Tick(w), u, w.trans[u].tpb, net, x, t, m);
      var w1 := Start(Tick(w), u, w.trans[u].tpb, net).1;
      if u in w1.trans {
        AsideOf(w1, u, x, t, m);
        SetSpares(w1, u, w1.trans[u].(retain := false), x, t, m);
      }
    }
  }

  lemma CommitRestartSpares(w: World, u: Addr, net: Net, x: Work, t: Addr, m: Mark)
    requires Aside(w, x, t, m) && u != t
    ensures Aside(CommitRestart(w, u, net).1, x, t, m)
  {
    hide Aside, TryCommit, FreeHandle, RestartFromTpb;
    FaultSpares(w, x, t, m);
    CommitSpares(w, u, net, x, t, m);
    var w1 := TryCommit(w, u, net).1;
    HandleSpares(w1, u, [], net, x, t, m);
    RestartSpares(FreeHandle(w1, u), u, net, x, t, m);
  }

  lemma RollbackRestartSpares(w: World, u: Addr, net: Net, x: Work, t: Addr, m: Mark)
    requires Aside(w, x, t, m)
    ensures Aside(RollbackRestart(w, u, net).1, x, t, m)
  {
    hide Aside, TryRollback, FreeHandle, Start;
    FaultSpares(w, x, t, m);
    RollbackSpares(w, u, net, x, t, m);
    var w1 := TryRollback(w, u, net).1;
    if u in w.trans {
      HandleSpares(w1, u, w.trans[u].tpb, net, x, t, m);
      HandleSpares(FreeHandle(w1, u), u, w.trans[u].tpb, net, x, t, m);
    }
  }

  /** Another transaction is released, or `t` is not idle. */
  lemma ReleaseSpares(w: World, u: Addr, net: Net, x: Work, t: Addr, m: Mark)
    requires Aside(w, x, t, m) && (u == t && t in w.trans && m.Allowed? ==> !Idle(w.trans[t]))
    ensures Aside(ReleaseIfIdle(w, u, net), x, t, m)
  {
    hide Aside, CommitRestart, SameLayout, OnlyTrans;
    FaultSpares(w, x, t, m);
    if u in w.trans && Idle(w.trans[u]) {
      AsideOf(w, u, x, t, m);
      SetSpares(w, u, w.trans[u].(retain := false), x, t, m);
      CommitRestartSpares(SetT(w, u, w.trans[u].(retain := false)), u, net, x, t, m);
    }
  }

  /** An idle release of `t` spends its mark. */
  lemma ReleaseSpends(w: World, net: Net, x: Work, t: Addr)
    requires Aside(w, x, t, Allowed) && t in w.trans && Idle(w.trans[t])
    ensures Aside(ReleaseIfIdle(w, t, net), x, t, Spent)
  {
    hide Aside, CommitRestart;
    AsideIs(w, x, t, Allowed);
    AsideOf(w, t, x, t, Allowed);
    var w1 := SetT(w, t, w.trans[t].(retain := false));
    RestartUnmarks(w1, t, net);
    var r := CommitRestart(w1, t, net).1;
    assert Aside(r, x, t, Spent) by { SpentIs(r, x, t); }
  }

  lemma SpentIs(w: World, x: Work, t: Addr)
    requires x < w.next && t < w.next && Listed(w, t) && t in w.trans && !w.trans[t].isDefault && Emptied(w.trans[t])
    ensures Aside(w, x, t, Spent)
  {}

  lemma RestartUnmarks(w: World, t: Addr, net: Net)
    requires t in w.trans && !w.trans[t].retain
    ensures t in CommitRestart(w, t, net).1.trans && !CommitRestart(w, t, net).1.trans[t].retain
  {
    hide TryCommit, FreeHandle, RestartFromTpb;
    StaysUnmarked(w, t, net);
    StaysUnmarked(TryCommit(w, t, net).1, t, net);
    StaysUnmarked(FreeHandle(TryCommit(w, t, net).1, t), t, net);
  }

  lemma StaysUnmarked(w: World, t: Addr, net: Net)
    requires t in w.trans && !w.trans[t].retain
    ensures Unmarked(TryCommit(w, t, net).1, t) && Unmarked(FreeHandle(w, t), t) &&
            Unmarked(RestartFromTpb(w, t, net).1, t)
  {
    hide Start, SameLayout, OnlyTrans, TryCommit, RestartFromTpb;
    TryUnmarked(w, t, net);
    AgainUnmarked(w, t, net);
  }

  ghost predicate Unmarked(w: World, t: Addr) { t in w.trans && !w.trans[t].retain }

  lemma TryUnmarked(w: World, t: Addr, net: Net)
    requires Unmarked(w, t)
    ensures Unmarked(TryCommit(w, t, net).1, t)
  {
    hide SameLayout, OnlyTrans;
  }

  lemma AgainUnmarked(w: World, t: Addr, net: Net)
    requires Unmarked(w, t)
    ensures Unmarked(RestartFromTpb(w, t, net).1, t)
  {
    hide Start, SameLayout, OnlyTrans;
    StartUnmarked(Tick(w), t, w.trans[t].tpb, net);
  }

  lemma StartUnmarked(w: World, t: Addr, tpb: seq<Byte>, net: Net)
    requires t in w.trans && !w.trans[t].retain
    ensures t in Start(w, t, tpb, net).1.trans && !Start(w, t, tpb, net).1.trans[t].retain
  {
    hide SameLayout, OnlyTrans;
  }

  /** A query changes and stays with its transaction. */
  lemma QuerySpares(w: World, q: Addr, qq: Query, x: Work, t: Addr, m: Mark)
    requires Aside(w, x, t, m) && q in w.queries && qq.trans == w.queries[q].trans
    ensures Aside(SetQ(w, q, qq), x, t, m)
  {
    hide Aside;
    AsideIs(w, x, t, m);
    ListsSpare(w, SetQ(w, q, qq), x, t, m);
  }

  lemma FlagSpares(w: World, q: Addr, x: Work, t: Addr, m: Mark)
    requires Aside(w, x, t, m)
    ensures Aside(SetOpen(w, q, true), x, t, m) && Aside(SetOpen(w, q, false), x, t, m)
    ensures Aside(SetMore(w, q, true), x, t, m) && Aside(SetMore(w, q, false), x, t, m)
  {
    hide Aside, SameLayout, OnlyFlags;
    FaultSpares(w, x, t, m);
    if q in w.queries {
      var qq := w.queries[q];
      QuerySpares(w, q, qq.(isOpen := true), x, t, m);
      QuerySpares(w, q, qq.(isOpen := false), x, t, m);
      QuerySpares(w, q, qq.(more := true), x, t, m);
      QuerySpares(w, q, qq.(more := false), x, t, m);
    }
  }

  lemma CountSpares(w: World, u: Addr, net: Net, x: Work, t: Addr, m: Mark)
    requires Aside(w, x, t, m) && (u == t ==> !m.Spent? && (t in w.trans ==> w.trans[t].queries != []))
    ensures Aside(CountUp(w, u), x, t, m) && Aside(CountDown(w, u, net), x, t, m)
  {
    hide Aside, SameLayout, ReleaseIfIdle, OnlyTrans;
    FaultSpares(w, x, t, m);
    if u in w.trans {
      var tr := w.trans[u];
      AsideOf(w, u, x, t, m);
      SetSpares(w, u, tr.(count := tr.count + 1), x, t, m);
      SetSpares(w, u, tr.(count := 0), x, t, m);
      FaultSpares(SetT(w, u, tr.(count := 0)), x, t, m);
      if tr.count > 0 {
        SetSpares(w, u, tr.(count := tr.count - 1), x, t, m);
        ReleaseSpares(SetT(w, u, tr.(count := tr.count - 1)), u, net, x, t, m);
      }
    }
  }

  /** A query that uses `t` keeps it from being idle. */
  lemma UserOf(w: World, q: Addr, x: Work, t: Addr, m: Mark)
    requires Aside(w, x, t, m) && q in w.queries && w.queries[q].trans == Some(t)
    ensures !m.Spent? && (t in w.trans ==> w.trans[t].queries != [])
  {}

  lemma CursorSpares(w: World, q: Addr, net: Net, x: Work, t: Addr, m: Mark)
    requires Aside(w, x, t, m)
    ensures Aside(CursorOpened(w, q), x, t, m) && Aside(CursorClosed(w, q, net), x, t, m) &&
            Aside(Shut(w, q, net), x, t, m)
  {
    hide Aside, CountUp, CountDown, SetOpen, SetMore;
    FaultSpares(w, x, t, m);
    FlagSpares(w, q, x, t, m);
    if q in w.queries && w.queries[q].trans.Some? {
      var u := w.queries[q].trans.value;
      if u == t { UserOf(w, q, x, t, m); }
      CountSpares(w, u, net, x, t, m);
      FlagSpares(CountUp(w, u), q, x, t, m);
      FlagSpares(CountDown(w, u, net), q, x, t, m);
    }
    FlagSpares(CursorClosed(w, q, net), q, x, t, m);
  }

  /** Lists and queries change, handles do not. */
  lemma ListsSpare(w: World, w1: World, x: Work, t: Addr, m: Mark)
    requires Aside(w, x, t, m) && w1.durable == w.durable && w1.next >= w.next
    requires Listed(w1, t) && (m.Spent? ==> t in w1.trans && Emptied(w1.trans[t]))
    requires forall u :: u in w1.trans ==>
               && u in w.trans && w1.trans[u].handle == w.trans[u].handle &&
                  w1.trans[u].isDefault == w.trans[u].isDefault
               && w1.trans[u].retain == w.trans[u].retain
    ensures Aside(w1, x, t, m)
  {
    if !m.Spent? {
      forall u | u in w1.trans && u != t ensures x !in Pending(w1.trans, u) { assert x !in Pending(w.trans, u); }
    }
  }

  /** The registries of `u` change; whoever uses `t` stays in its list. */
  lemma RelistSpares(w: World, u: Addr, tr: Trans, x: Work, t: Addr, m: Mark)
    requires Aside(w, x, t, m) && u in w.trans && Same(tr, w.trans[u].(queries := tr.queries, batches := tr.batches))
    requires u == t ==> (m.Spent? ==> Emptied(tr)) && forall q :: q in w.queries && w.queries[q].trans == Some(t) ==>
               q in tr.queries
    ensures Aside(SetT(w, u, tr), x, t, m)
  {
    if !m.Spent? {
      forall v | v in w.trans && v != t ensures x !in Pending(SetT(w, u, tr).trans, v) {
        assert x !in Pending(w.trans, v);
      }
    }
  }

  lemma QueriesSpare(w: World, Q: map<Addr, Query>, x: Work, t: Addr, m: Mark)
    requires Aside(w, x, t, m)
    requires t in w.trans ==> forall q :: q in Q && Q[q].trans == Some(t) ==>
               (q in w.queries && w.queries[q].trans == Some(t)) || q in w.trans[t].queries
    ensures Aside(w.(queries := Q), x, t, m)
  {}

  lemma BatchesSpare(w: World, B: map<Addr, Batch>, x: Work, t: Addr, m: Mark)
    requires Aside(w, x, t, m)
    ensures Aside(w.(batches := B), x, t, m)
  {}

  lemma AddedSpares(w: World, q: Addr, u: Addr, x: Work, t: Addr, m: Mark)
    requires Aside(w, x, t, m) && !m.Spent? && u in w.trans
    ensures Aside(SetT(w, u, w.trans[u].(queries := [q] + w.trans[u].queries)), x, t, m)
  {
    hide Aside;
    AsideIs(w, x, t, m);
    RelistSpares(w, u, w.trans[u].(queries := [q] + w.trans[u].queries), x, t, m);
  }

  lemma EnrollSpares(w: World, q: Addr, u: Addr, x: Work, t: Addr, m: Mark)
    requires Aside(w, x, t, m) && !m.Spent?
    ensures Aside(Enroll(w, q, u), x, t, m)
  {
    hide Aside;
    FaultSpares(w, x, t, m);
    if q in w.queries && u in w.trans {
      AddedSpares(w, q, u, x, t, m);
      QueriesSpare(SetT(w, u, w.trans[u].(queries := [q] + w.trans[u].queries)),
                   w.queries[q := w.queries[q].(trans := Some(u), reg := Some(u))], x, t, m);
    }
  }

  /** Leaving a registry takes nobody else out of it. */
  lemma LeftListed(w: World, q: Addr, t: Addr)
    requires Listed(w, t) && q in w.queries && t in w.trans
    ensures var T := Left(w.trans, w.queries[q].reg, q);
            && (w.trans[t].queries == [] ==> T[t].queries == [])
            && forall p :: p in w.queries && p != q && w.queries[p].trans == Some(t) ==> p in T[t].queries
  {
    hide Without;
    forall p | p in w.queries && p != q && w.queries[p].trans == Some(t)
        ensures p in Left(w.trans, w.queries[q].reg, q)[t].queries {
      WithoutIn(w.trans[t].queries, q, p);
    }
    if w.trans[t].queries == [] { WithoutAbsent(w.trans[t].queries, q); }
  }

  lemma PrunedTrans(w: World, q: Addr)
    requires q in w.queries
    ensures var P := Pruned(w.queries, q);
            P.Keys == w.queries.Keys - {q} && forall p :: p in P ==> P[p].trans == w.queries[p].trans
  {}

  /** Query `q` leaves its registry, and in `Q` nobody new uses `t`. */
  lemma LeaveSpares(w: World, q: Addr, Q: map<Addr, Query>, x: Work, t: Addr, m: Mark)
    requires Aside(w, x, t, m) && q in w.queries
    requires forall p :: p in Q && Q[p].trans == Some(t) ==> p != q && p in w.queries && w.queries[p].trans == Some(t)
    ensures Aside(w.(trans := Left(w.trans, w.queries[q].reg, q), queries := Q), x, t, m)
  {
    hide Aside, Left;
    AsideIs(w, x, t, m);
    LeftHandles(w.trans, w.queries[q].reg, q);
    if t in w.trans { LeftListed(w, q, t); }
    ListsSpare(w, w.(trans := Left(w.trans, w.queries[q].reg, q), queries := Q), x, t, m);
  }

  lemma UnenrollSpares(w: World, q: Addr, x: Work, t: Addr, m: Mark)
    requires Aside(w, x, t, m)
    ensures Aside(Unenroll(w, q), x, t, m)
  {
    hide Aside, Left;
    FaultSpares(w, x, t, m);
    if q in w.queries { LeaveSpares(w, q, w.queries[q := w.queries[q].(trans := None, reg := None)], x, t, m); }
  }

  lemma RemoveSpares(w: World, q: Addr, x: Work, t: Addr, m: Mark)
    requires Aside(w, x, t, m)
    ensures Aside(RemoveQuery(w, q), x, t, m)
  {
    hide Aside, Left, Pruned;
    FaultSpares(w, x, t, m);
    if q in w.queries {
      PrunedTrans(w, q);
      LeaveSpares(w, q, Pruned(w.queries, q), x, t, m);
    }
  }

  lemma LeftHandles(T: map<Addr, Trans>, reg: Option<Addr>, q: Addr)
    ensures var R := Left(T, reg, q);
            R.Keys == T.Keys && forall u :: u in T ==> Same(R[u], T[u].(queries := R[u].queries))
  {
    hide Without;
  }

  lemma DetachSpares(w: World, u: Addr, x: Work, t: Addr, m: Mark)
    requires Aside(w, x, t, m) && (u == t ==> !m.Spent?)
    ensures Aside(DetachAndFree(w, u), x, t, m)
  {
    hide Aside;
    AsideIs(w, x, t, m);
    ListsSpare(w, DetachAndFree(w, u), x, t, m);
  }

  lemma LinksSpare(w: World, L: map<Addr, Link>, x: Work, t: Addr, m: Mark)
    requires Aside(w, x, t, m)
    ensures Aside(w.(links := L), x, t, m)
  {}

  lemma UnlinkSpares(w: World, u: Addr, x: Work, t: Addr, m: Mark)
    requires Aside(w, x, t, m)
    ensures Aside(UnlinkTrans(w, u), x, t, m)
  {
    hide Aside;
    FaultSpares(w, x, t, m);
    if u in w.trans && w.trans[u].link.Some? && w.trans[u].link.value in w.links {
      AsideOf(w, u, x, t, m);
      SetSpares(w, u, w.trans[u].(link := None), x, t, m);
      LinksSpare(SetT(w, u, w.trans[u].(link := None)), UnlinkTrans(w, u).links, x, t, m);
    }
  }

  lemma NewTransSpares(w: World, l: Addr, tr: Trans, x: Work, t: Addr, m: Mark)
    requires Aside(w, x, t, m) && l in w.links && (tr.handle.Some? ==> tr.handle.value.pending == [])
    ensures Aside(NewTrans(w, l, tr), x, t, m)
  {}

  lemma DefTransSpares(w: World, l: Addr, dflt: seq<Byte>, net: Net, x: Work, t: Addr, m: Mark)
    requires Aside(w, x, t, m)
    ensures var (r, w1) := DefTrans(w, l, dflt, net); Aside(w1, x, t, m) && (r.Some? ==> r.value != t)
  {
    hide NewTrans, StartDefault;
    if Walkable(w, l) {
      FirstDefaultIs(w.trans, w.links[l].trs);
      NewTransSpares(w, l, FreshTrans(l, true, [], true, None), x, t, m);
      var (u, w1) := DefaultSlot(w, l);
      StartDefaultSpares(w1, u, dflt, net, x, t, m);
    }
  }

  lemma StartDefaultSpares(w: World, u: Addr, dflt: seq<Byte>, net: Net, x: Work, t: Addr, m: Mark)
    requires Aside(w, x, t, m)
    ensures Aside(StartDefault(w, u, dflt, net).1, x, t, m) &&
            (StartDefault(w, u, dflt, net).0.Some? ==> StartDefault(w, u, dflt, net).0.value == u)
  {
    hide Aside, SameLayout, OnlyTrans;
    FaultSpares(w, x, t, m);
    if u in w.trans {
      AsideOf(w, u, x, t, m);
      SetSpares(Tick(w), u, w.trans[u].(handle := Some(Handle(dflt, [], false)), tpb := dflt), x, t, m);
    }
  }

  lemma EndAndDropSpares(w: World, u: Addr, act: bool, commit: bool, net: Net, x: Work, t: Addr, m: Mark)
    requires Aside(w, x, t, m) && (act && commit ==> u != t)
    ensures Aside(EndAndDrop(w, u, act, commit, net), x, t, m)
  {
    hide Aside, TryCommit, TryRollback, FreeHandle;
    FaultSpares(w, x, t, m);
    if act && commit { CommitSpares(w, u, net, x, t, m); }
    RollbackSpares(w, u, net, x, t, m);
    var w1 := if !act then w else if commit then TryCommit(w, u, net).1 else TryRollback(w, u, net).1;
    HandleSpares(w1, u, [], net, x, t, m);
  }

  lemma FreeTransSpares(w: World, u: Addr, net: Net, x: Work, t: Addr, m: Mark)
    requires Aside(w, x, t, m) && !m.Spent?
    ensures Aside(FreeTrans(w, u, net), x, t, m)
  {
    hide Aside, EndAndDrop, UnlinkTrans, DetachAndFree;
    FaultSpares(w, x, t, m);
    if u in w.trans {
      var pings := w.trans[u].handle.Some? && w.trans[u].link.Some?;
      var w0 := if pings then Tick(w) else w;
      EndAndDropSpares(w0, u, pings && net(w.tick), false, net, x, t, m);
      var w1 := EndAndDrop(w0, u, pings && net(w.tick), false, net);
      UnlinkSpares(w1, u, x, t, m);
      DetachSpares(UnlinkTrans(w1, u), u, x, t, m);
    }
  }

  /** Which ends of a transaction make its work durable. */
  predicate Commits(mode: Mode) { mode.Commit? || mode.CommitRet? }

  lemma EndSwitchSpares(w: World, u: Addr, mode: Mode, net: Net, x: Work, t: Addr, m: Mark)
    requires Aside(w, x, t, m) && u in w.trans && (Commits(mode) ==> u != t)
    ensures Aside(EndSwitch(w, u, mode, net).1, x, t, m)
  {
    hide Aside, TryCommit, TryRollback, KeepLocks, CommitRestart, RollbackRestart, SameLayout, OnlyTrans;
    RollbackSpares(w, u, net, x, t, m);
    RollbackRestartSpares(w, u, net, x, t, m);
    HandleSpares(TryRollback(w, u, net).1, u, [], net, x, t, m);
    if Commits(mode) {
      CommitSpares(w, u, net, x, t, m);
      CommitRestartSpares(w, u, net, x, t, m);
      HandleSpares(TryCommit(w, u, net).1, u, [], net, x, t, m);
      RetainSpares(TryCommitRetaining(w, u, net).1, u, x, t, m);
    }
  }

  lemma RetainSpares(w: World, u: Addr, x: Work, t: Addr, m: Mark)
    requires Aside(w, x, t, m) && u != t
    ensures u in w.trans ==> Aside(SetT(w, u, w.trans[u].(retain := true)), x, t, m)
  {}

  lemma TransEndSpares(w: World, u: Addr, mode: Mode, net: Net, x: Work, t: Addr, m: Mark)
    requires Aside(w, x, t, m) && (Commits(mode) ==> u != t)
    ensures Aside(TransEnd(w, u, mode, net).1, x, t, m)
  {
    hide Aside, EndSwitch, RestartFromTpb, OnlyTrans;
    FaultSpares(w, x, t, m);
    RestartSpares(w, u, net, x, t, m);
    if u in w.trans {
      var (ready, w1) := if w.trans[u].handle.None? then RestartFromTpb(w, u, net) else (true, w);
      if u in w1.trans {
        EndSwitchSpares(w1, u, mode, net, x, t, m);
        var w2 := EndSwitch(w1, u, mode, net).1;
        FaultSpares(w2, x, t, m);
        if u in w2.trans {
          AsideOf(w2, u, x, t, m);
          SetSpares(w2, u, w2.trans[u].(handle := None, retain := false), x, t, m);
        }
      }
    }
  }

  // ------------------------------------------------------------ freeing queries

  lemma StmtsSpare(w: World, w1: World, x: Work, t: Addr, m: Mark)
    requires Aside(w, x, t, m) && w1 == w.(stmts := w1.stmts, fault := w1.fault)
    ensures Aside(w1, x, t, m)
  {}

  lemma StmtSpares(w: World, q: Addr, s: Addr, x: Work, t: Addr, m: Mark)
    requires Aside(w, x, t, m)
    ensures Aside(UseStmt(w, s), x, t, m) && Aside(DropStmt(w, q), x, t, m)
  {
    hide Aside;
    FaultSpares(w, x, t, m);
    if q in w.queries && w.queries[q].stmt.Some? && w.queries[q].owns {
      StmtsSpare(w, FreeStmt(w, w.queries[q].stmt.value), x, t, m);
      QuerySpares(FreeStmt(w, w.queries[q].stmt.value), q, w.queries[q].(stmt := None, owns := false), x, t, m);
    }
  }

  lemma CloseForFreeSpares(w: World, q: Addr, mirror: bool, net: Net, x: Work, t: Addr, m: Mark)
    requires Aside(w, x, t, m)
    ensures Aside(CloseForFree(w, q, mirror, net), x, t, m)
  {
    hide Aside, Shut, UseStmt, SameLayout, OnlyFlags;
    FaultSpares(w, x, t, m);
    if q in w.queries && w.queries[q].stmt.Some? {
      StmtSpares(w, q, w.queries[q].stmt.value, x, t, m);
      var w0 := UseStmt(w, w.queries[q].stmt.value);
      CursorSpares(w0, q, net, x, t, m);
      if w.queries[q].parent.Some? { CursorSpares(Shut(w0, q, net), w.queries[q].parent.value, net, x, t, m); }
    }
  }

  /** Freeing a result commits default transactions only. */
  lemma CommitOnFreeSpares(w: World, q: Addr, had: bool, net: Net, x: Work, t: Addr, m: Mark)
    requires Aside(w, x, t, m)
    ensures Aside(CommitOnFree(w, q, had, net), x, t, m)
  {
    hide Aside, EndAndDrop, FreeHandle;
    FaultSpares(w, x, t, m);
    if q in w.queries && w.queries[q].trans.Some? {
      var u := w.queries[q].trans.value;
      if u in w.trans && w.trans[u].isDefault {
        AsideOf(w, u, x, t, m);
        HandleSpares(Tick(w), u, [], net, x, t, m);
        EndAndDropSpares(Tick(w), u, true, true, net, x, t, m);
      }
    }
  }

  lemma DestroyLeafSpares(w: World, q: Addr, mirror: bool, net: Net, x: Work, t: Addr, m: Mark)
    requires Aside(w, x, t, m)
    ensures Freed(DestroyLeaf(w, q, mirror, net), x, t, m)
  {
    hide Aside, CloseForFree, DropStmt, CommitOnFree, RemoveQuery, ReleaseIfIdle;
    FaultSpares(w, x, t, m);
    if q in w.queries {
      CloseForFreeSpares(w, q, mirror, net, x, t, m);
      StmtSpares(CloseForFree(w, q, mirror, net), q, 0, x, t, m);
      var w1 := DropStmt(CloseForFree(w, q, mirror, net), q);
      CommitOnFreeSpares(w1, q, w.queries[q].isOpen, net, x, t, m);
      var w2 := CommitOnFree(w1, q, w.queries[q].isOpen, net);
      RemoveSpares(w2, q, x, t, m);
      var w3 := RemoveQuery(w2, q);
      if w.queries[q].trans.Some? {
        var u := w.queries[q].trans.value;
        if u == t && t in w3.trans && m.Allowed? && Idle(w3.trans[t]) { ReleaseSpends(w3, net, x, t); }
        else { ReleaseSpares(w3, u, net, x, t, m); }
      }
    }
  }

  lemma {:induction false} FreeTreeSpares(w: World, q: Addr, mirror: bool, end: nat, net: Net, x: Work, t: Addr,
                                          m: Mark)
    requires Aside(w, x, t, m)
    ensures Freed(FreeTree(w, q, mirror, end, net), x, t, m)
    decreases end - q, 1, 0
  {
    hide Aside, DestroyLeaf;
    FaultSpares(w, x, t, m);
    if q in w.queries {
      FreeAllSpares(w, q, w.queries[q].children, end, net, x, t, m);
      var w1 := FreeAll(w, q, w.queries[q].children, end, net);
      DestroyLeafSpares(w1, q, mirror, net, x, t, if Aside(w1, x, t, m) then m else Spent);
    }
  }

  lemma {:induction false} FreeAllSpares(w: World, q: Addr, children: seq<Addr>, end: nat, net: Net, x: Work, t: Addr,
                                         m: Mark)
    requires Aside(w, x, t, m)
    ensures Freed(FreeAll(w, q, children, end, net), x, t, m)
    decreases end - q, 0, |children|
  {
    hide Aside;
    FaultSpares(w, x, t, m);
    if children != [] && q < children[0] < end {
      FreeTreeSpares(w, children[0], false, end, net, x, t, m);
      var w1 := FreeTree(w, children[0], false, end, net);
      FreeAllSpares(w1, q, children[1..], end, net, x, t, if Aside(w1, x, t, m) then m else Spent);
    }
  }

  // ------------------------------------------------------------ preparing and executing

  lemma PrepareSpares(w: World, l: Addr, u: Addr, explicit: bool, kind: Kind, form: Form, net: Net, x: Work, t: Addr,
                      m: Mark)
    requires Aside(w, x, t, m) && !m.Spent?
    ensures var (q, w1) := Prepare(w, l, u, explicit, kind, form, net);
            Freed(w1, x, t, m) && (q.Some? ==> Aside(w1, x, t, m))
  {
    hide Aside, NewQuery, PrepareOn;
    FaultSpares(w, x, t, m);
    NewQuerySpares(w, u, FreshQuery(l, explicit, kind), x, t, m);
    PrepareOnSpares(NewQuery(w, u, FreshQuery(l, explicit, kind)), w.next, u, form, net, x, t, m);
  }

  lemma AdoptedTrans(Q: map<Addr, Query>, q: Addr, qq: Query)
    ensures var P := Adopted(Q, q, qq);
            P.Keys == Q.Keys + {q} && forall p :: p in P ==>
                (p in Q && P[p].trans == Q[p].trans) || (p == q && P[p].trans == qq.trans)
  {}

  lemma NewQuerySpares(w: World, u: Addr, qq: Query, x: Work, t: Addr, m: Mark)
    requires Aside(w, x, t, m) && !m.Spent?
    ensures Aside(NewQuery(w, u, qq), x, t, m)
  {
    hide Aside, Adopted;
    FaultSpares(w, x, t, m);
    var Q := Adopted(w.queries, w.next, qq.(trans := Some(u), reg := Some(u)));
    AdoptedTrans(w.queries, w.next, qq.(trans := Some(u), reg := Some(u)));
    if u in w.trans {
      AddedSpares(w, w.next, u, x, t, m);
      var w1 := SetT(w, u, w.trans[u].(queries := [w.next] + w.trans[u].queries));
      QueriesSpare(w1, Q, x, t, m);
      FaultSpares(w1.(queries := Q), x, t, m);
    }
  }

  lemma PrepareOnSpares(w: World, q: Addr, u: Addr, form: Form, net: Net, x: Work, t: Addr, m: Mark)
    requires Aside(w, x, t, m)
    ensures var (r, w1) := PrepareOn(w, q, u, form, net); Freed(w1, x, t, m) && (r.Some? ==> Aside(w1, x, t, m))
  {
    hide Aside, FreeTree, AttachStmt;
    FaultSpares(w, x, t, m);
    FreeTreeSpares(w, q, true, w.next, net, x, t, m);
    FreeTreeSpares(Tick(w), q, true, w.next, net, x, t, m);
    AttachSpares(Tick(w), q, form, x, t, m);
    var w1 := AttachStmt(Tick(w), q);
    FaultSpares(w1, x, t, m);
    FreeTreeSpares(Tick(w1), q, true, w1.next, net, x, t, m);
    AttachSpares(Tick(w1), q, form, x, t, m);
  }

  lemma AttachSpares(w: World, q: Addr, form: Form, x: Work, t: Addr, m: Mark)
    requires Aside(w, x, t, m)
    ensures Aside(AttachStmt(w, q), x, t, m)
    ensures q in w.queries ==> Aside(SetQ(w, q, Described(w.queries[q], form)), x, t, m)
  {
    hide Aside;
    AsideIs(w, x, t, m);
    ListsSpare(w, AttachStmt(w, q), x, t, m);
    if q in w.queries { QuerySpares(w, q, Described(w.queries[q], form), x, t, m); }
  }

  /** The query does not use `t`, or was given `t` by its caller. */
  ghost predicate Given(w: World, q: Addr, t: Addr) {
    q in w.queries && (w.queries[q].trans == Some(t) ==> w.queries[q].explicit)
  }

  /** Executing the query does not ask for a commit of `t`: it is not COMMIT, and not DDL that auto_ddl_commit
      or an open cursor turns into one. */
  ghost predicate AsksNoCommit(w: World, q: Addr, t: Addr) {
    Given(w, q, t) &&
    (w.queries[q].trans == Some(t) ==>
       && !w.queries[q].kind.CommitSql?
       && !(w.queries[q].kind.Ddl? && (w.rules.autoDdl || (t in w.trans && w.trans[t].count > 0))))
  }

  lemma ReexecSpares(w: World, q: Addr, net: Net, x: Work, t: Addr, m: Mark)
    requires Aside(w, x, t, m) && AsksNoCommit(w, q, t)
    ensures Aside(CloseForReexec(w, q, net), x, t, m) && AsksNoCommit(CloseForReexec(w, q, net), q, t)
  {
    hide Aside, Shut, UseStmt;
    if w.queries[q].stmt.Some? { StmtSpares(w, q, w.queries[q].stmt.value, x, t, m); }
    var w1 := if w.queries[q].stmt.Some? then UseStmt(w, w.queries[q].stmt.value) else w;
    CursorSpares(w1, q, net, x, t, m);
    ShutLowers(w, q, net, t);
    if w.queries[q].stmt.Some? { UseIs(w, q); }
    ShutLowers(w1, q, net, t);
  }

  lemma UseIs(w: World, q: Addr)
    requires q in w.queries && w.queries[q].stmt.Some?
    ensures var r := UseStmt(w, w.queries[q].stmt.value); r == w.(fault := r.fault)
  {}

  lemma ShutLowers(w: World, q: Addr, net: Net, t: Addr)
    ensures t in w.trans ==> t in Shut(w, q, net).trans && Shut(w, q, net).trans[t].count <= w.trans[t].count
  {
    hide ReleaseIfIdle;
  }

  lemma EnsureDefaultSpares(w: World, q: Addr, dflt: seq<Byte>, net: Net, x: Work, t: Addr, m: Mark)
    requires Aside(w, x, t, m) && !m.Spent? && AsksNoCommit(w, q, t)
    ensures var w1 := EnsureDefault(w, q, dflt, net).1; Aside(w1, x, t, m) && AsksNoCommit(w1, q, t)
  {
    hide Aside, DefTrans, Enroll, Unenroll;
    FaultSpares(w, x, t, m);
    var l := w.queries[q].link;
    UnenrollSpares(w, q, x, t, m);
    var w0 := Unenroll(w, q);
    DefTransSpares(w0, l, dflt, net, x, t, m);
    var (u, w1) := DefTrans(w0, l, dflt, net);
    UnenrolledIs(w, q);
    DefTransLeaves(w0, l, dflt, net);
    if u.Some? {
      EnrollSpares(w1, q, u.value, x, t, m);
      EnrolledIs(w1, q, u.value);
    }
  }

  lemma UnenrolledIs(w: World, q: Addr)
    requires q in w.queries
    ensures var r := Unenroll(w, q);
            q in r.queries && (r.queries[q].trans.None? || r.queries[q].trans == w.queries[q].trans)
  {}

  lemma EnrolledIs(w: World, q: Addr, u: Addr)
    requires q in w.queries
    ensures var r := Enroll(w, q, u);
            q in r.queries && (r.queries[q].trans == Some(u) || r.queries[q].trans == w.queries[q].trans)
  {}

  lemma DefTransLeaves(w: World, l: Addr, dflt: seq<Byte>, net: Net)
    ensures DefTrans(w, l, dflt, net).1.queries == w.queries
  {}

  lemma DdlGateSpares(w: World, q: Addr, net: Net, x: Work, t: Addr, m: Mark)
    requires Aside(w, x, t, m) && AsksNoCommit(w, q, t)
    ensures var w1 := DdlGate(w, q, net).1; Aside(w1, x, t, m) && Given(w1, q, t)
  {
    hide Aside, TryCommit, FreeHandle, Start;
    FaultSpares(w, x, t, m);
    if w.queries[q].trans.Some? && w.queries[q].trans.value in w.trans {
      var u := w.queries[q].trans.value;
      if u != t {
        CommitSpares(w, u, net, x, t, m);
        var w1 := TryCommit(w, u, net).1;
        HandleSpares(w1, u, w.trans[u].tpb, net, x, t, m);
        HandleSpares(FreeHandle(w1, u), u, w.trans[u].tpb, net, x, t, m);
      }
    }
  }

  lemma PendingSpares(w: World, u: Addr, pending: seq<Work>, x: Work, t: Addr, m: Mark)
    requires Aside(w, x, t, m) && u in w.trans && w.trans[u].handle.Some?
    requires u != t && !m.Spent? ==> x !in pending
    ensures Aside(SetT(w, u, w.trans[u].(handle := Some(w.trans[u].handle.value.(pending := pending)))), x, t, m)
  {
    hide Aside;
    AsideOf(w, u, x, t, m);
    SetSpares(w, u, w.trans[u].(handle := Some(w.trans[u].handle.value.(pending := pending))), x, t, m);
  }

  lemma AddWorkSpares(w: World, u: Addr, kind: Kind, effect: Effect, x: Work, t: Addr, m: Mark)
    requires Aside(w, x, t, m)
    ensures Aside(AddWork(w, u, kind, effect), x, t, m)
  {
    hide Aside, Pending;
    FaultSpares(w, x, t, m);
    if u in w.trans && w.trans[u].handle.Some? {
      hide MoreWork, SetT;
      MoreWorkSpares(w, u, x, t, m);
      AsideOf(w, u, x, t, m);
      var h := w.trans[u].handle.value;
      PendingSpares(w, u, h.pending[..Min(effect.keep, |h.pending|)], x, t, m);
    }
  }

  lemma MoreWorkSpares(w: World, u: Addr, x: Work, t: Addr, m: Mark)
    requires Aside(w, x, t, m) && u in w.trans && w.trans[u].handle.Some?
    ensures Aside(MoreWork(w, u), x, t, m)
  {
    hide Aside, Pending;
    AsideOf(w, u, x, t, m);
    Older(w, x, t, m);
    var h := w.trans[u].handle.value;
    PendingSpares(w, u, h.pending + [w.next], x, t, m);
    FaultSpares(SetT(w, u, w.trans[u].(handle := Some(h.(pending := h.pending + [w.next])))), x, t, m);
  }

  lemma AddWorkQueries(w: World, u: Addr, kind: Kind, effect: Effect)
    ensures AddWork(w, u, kind, effect).queries == w.queries && AddWork(w, u, kind, effect).batches == w.batches
  {}

  lemma Older(w: World, x: Work, t: Addr, m: Mark)
    requires Aside(w, x, t, m)
    ensures x != w.next
  {}

  lemma RunSpares(w: World, q: Addr, effect: Effect, net: Net, x: Work, t: Addr, m: Mark)
    requires Aside(w, x, t, m) && Given(w, q, t)
    ensures var w1 := RunStatement(w, q, effect, net).1; Aside(w1, x, t, m) && Given(w1, q, t)
  {
    hide Aside, AddWork, UseStmt;
    FaultSpares(w, x, t, m);
    var qq := w.queries[q];
    if qq.stmt.Some? && qq.trans.Some? {
      StmtSpares(w, q, qq.stmt.value, x, t, m);
      UseIs(w, q);
      var w1 := UseStmt(w, qq.stmt.value);
      FaultSpares(w1, x, t, m);
      AddWorkSpares(Tick(w1), qq.trans.value, qq.kind, effect, x, t, m);
      AddWorkQueries(Tick(w1), qq.trans.value, qq.kind, effect);
      var w2 := AddWork(Tick(w1), qq.trans.value, qq.kind, effect);
      FaultSpares(w2, x, t, m);
      FaultSpares(Tick(w2), x, t, m);
      OnceSpares(Tick(Tick(w2)), q, x, t, m);
    }
  }

  lemma OnceSpares(w: World, q: Addr, x: Work, t: Addr, m: Mark)
    requires Aside(w, x, t, m) && q in w.queries
    ensures Aside(SetQ(w, q, w.queries[q].(once := true)), x, t, m)
  {
    hide Aside;
    QuerySpares(w, q, w.queries[q].(once := true), x, t, m);
  }

  lemma {:induction false} CloseCursorsSpares(w: World, u: Addr, i: nat, end: nat, net: Net, x: Work, t: Addr, m: Mark)
    requires Aside(w, x, t, m)
    ensures Aside(CloseCursors(w, u, i, end, net).1, x, t, m)
    decreases end - i
  {
    hide Aside, Shut;
    if i < end {
      CursorSpares(w, i, net, x, t, m);
      CloseCursorsSpares(Shut(w, i, net), u, i + 1, end, net, x, t, m);
      CloseCursorsSpares(w, u, i + 1, end, net, x, t, m);
    }
  }

  lemma AutoCommitSpares(w: World, u: Addr, retry: bool, net: Net, x: Work, t: Addr, m: Mark)
    requires Aside(w, x, t, m) && u != t
    ensures Aside(AutoCommit(w, u, retry, net), x, t, m)
  {
    hide Aside, TryCommit, FreeHandle, CloseCursors;
    FaultSpares(w, x, t, m);
    CommitSpares(w, u, net, x, t, m);
    var w1 := TryCommit(w, u, net).1;
    HandleSpares(w1, u, [], net, x, t, m);
    CloseCursorsSpares(w1, u, 0, w1.next, net, x, t, m);
    var w2 := CloseCursors(w1, u, 0, w1.next, net).1;
    HandleSpares(w2, u, [], net, x, t, m);
    CommitSpares(w2, u, net, x, t, m);
    HandleSpares(TryCommit(w2, u, net).1, u, [], net, x, t, m);
  }

  lemma DdlAutocommitSpares(w: World, q: Addr, net: Net, x: Work, t: Addr, m: Mark)
    requires Aside(w, x, t, m) && Given(w, q, t)
    ensures Aside(DdlAutocommit(w, q, net), x, t, m)
  {
    hide Aside, AutoCommit;
    FaultSpares(w, x, t, m);
    if w.queries[q].trans.Some? && w.queries[q].trans.value != t {
      AutoCommitSpares(w, w.queries[q].trans.value, true, net, x, t, m);
    }
  }

  lemma MakeResultSpares(w: World, q: Addr, x: Work, t: Addr, m: Mark)
    requires Aside(w, x, t, m) && !m.Spent?
    ensures Aside(MakeResult(w, q).1, x, t, m)
  {
    hide Aside, NewQuery, CursorOpened;
    FaultSpares(w, x, t, m);
    if q in w.queries && w.queries[q].trans.Some? {
      NewQuerySpares(w, w.queries[q].trans.value, ResultOf(w.queries[q], q), x, t, m);
      CursorSpares(NewQuery(w, w.queries[q].trans.value, ResultOf(w.queries[q], q)), w.next, YES, x, t, m);
    }
  }

  lemma FinishSpares(w: World, q: Addr, net: Net, x: Work, t: Addr, m: Mark)
    requires Aside(w, x, t, m) && !m.Spent? && Given(w, q, t)
    ensures Aside(Finish(w, q, net).1, x, t, m)
  {
    hide Aside, DdlAutocommit, MakeResult, Shut, CursorOpened, SetMore;
    DdlAutocommitSpares(w, q, net, x, t, m);
    var w1 := DdlAutocommit(w, q, net);
    FaultSpares(w1, x, t, m);
    CursorSpares(w1, q, net, x, t, m);
    CursorSpares(Tick(w1), q, net, x, t, m);
    MakeResultSpares(w1, q, x, t, m);
    FlagSpares(CursorOpened(w1, q), q, x, t, m);
    var w2 := SetMore(CursorOpened(w1, q), q, true);
    FaultSpares(w2, x, t, m);
    MakeResultSpares(w2, q, x, t, m);
  }

  lemma ControlSpares(w: World, q: Addr, net: Net, x: Work, t: Addr, m: Mark)
    requires Aside(w, x, t, m) && AsksNoCommit(w, q, t)
    ensures Aside(Control(w, q, net).1, x, t, m)
  {
    hide Aside, SetTransaction, EndBySql, Shut;
    FaultSpares(w, x, t, m);
    CursorSpares(w, q, net, x, t, m);
    SetTransactionSpares(w, q, w.queries[q].link, net, x, t, m);
    if w.queries[q].trans.Some? {
      var (u, commit) := (w.queries[q].trans.value, w.queries[q].kind.CommitSql?);
      EndBySqlSpares(w, q, u, commit, net, x, t, m);
    }
  }

  lemma SetTransactionSpares(w: World, q: Addr, l: Addr, net: Net, x: Work, t: Addr, m: Mark)
    requires Aside(w, x, t, m)
    ensures Aside(SetTransaction(w, q, l, net).1, x, t, m)
  {
    hide Aside, NewTrans, Shut;
    FaultSpares(w, x, t, m);
    CursorSpares(Tick(w), q, net, x, t, m);
    if l in w.links {
      NewTransSpares(Tick(w), l, FreshTrans(l, false, [], true, Some(Handle([], [], false))), x, t, m);
    }
  }

  lemma EndBySqlSpares(w: World, q: Addr, u: Addr, commit: bool, net: Net, x: Work, t: Addr, m: Mark)
    requires Aside(w, x, t, m) && (commit ==> u != t)
    ensures Aside(EndBySql(w, q, u, commit, net).1, x, t, m)
  {
    hide Aside, TryCommit, TryRollback, FreeHandle, Shut, SameLayout, OnlyTrans, OnlyFlags;
    FaultSpares(w, x, t, m);
    CursorSpares(w, q, net, x, t, m);
    if commit { CommitSpares(w, u, net, x, t, m); } else { RollbackSpares(w, u, net, x, t, m); }
    var w1 := if commit then TryCommit(w, u, net).1 else TryRollback(w, u, net).1;
    HandleSpares(w1, u, [], net, x, t, m);
    CursorSpares(w1, q, net, x, t, m);
  }

  lemma ExecSpares(w: World, q: Addr, input: Input, net: Net, x: Work, t: Addr, m: Mark)
    requires Aside(w, x, t, m) && !m.Spent? && AsksNoCommit(w, q, t)
    ensures Aside(Exec(w, q, input, net).1, x, t, m)
  {
    hide Aside, CloseForReexec, Control, ExecPlain;
    ReexecSpares(w, q, net, x, t, m);
    var w1 := CloseForReexec(w, q, net);
    ControlSpares(w1, q, net, x, t, m);
    ExecPlainSpares(w1, q, input, net, x, t, m);
  }

  lemma BindSpares(w: World, q: Addr, input: Input, x: Work, t: Addr, m: Mark)
    requires Aside(w, x, t, m)
    ensures Aside(Fault(w), x, t, m) && (Bind(w, q, input).1 == w || Bind(w, q, input) == (false, Fault(w)))
  {
    hide Aside;
    FaultSpares(w, x, t, m);
  }

  lemma ExecPlainSpares(w: World, q: Addr, input: Input, net: Net, x: Work, t: Addr, m: Mark)
    requires Aside(w, x, t, m) && !m.Spent? && q in w.queries && AsksNoCommit(w, q, t)
    ensures Aside(ExecPlain(w, q, input, net).1, x, t, m)
  {
    hide Aside, Bind, EnsureDefault, DdlGate, RunStatement, Finish, Shut, SameLayout, OnlyFlags, AsksNoCommit, Given;
    BindSpares(w, q, input, x, t, m);
    CursorSpares(w, q, net, x, t, m);
    CursorSpares(Fault(w), q, net, x, t, m);
    EnsureDefaultSpares(w, q, input.dflt, net, x, t, m);
    var w2 := EnsureDefault(w, q, input.dflt, net).1;
    DdlGateSpares(w2, q, net, x, t, m);
    var w3 := DdlGate(w2, q, net).1;
    CursorSpares(w3, q, net, x, t, m);
    RunSpares(w3, q, input.effect, net, x, t, m);
    var w4 := RunStatement(w3, q, input.effect, net).1;
    CursorSpares(w4, q, net, x, t, m);
    FinishSpares(w4, q, net, x, t, m);
  }

  // ------------------------------------------------------------ one-shot calls

  lemma SettleSpares(w: World, q: Addr, reply: Reply, net: Net, x: Work, t: Addr, m: Mark)
    requires Aside(w, x, t, m)
    ensures Freed(Settle(w, q, reply, net), x, t, m)
  {
    hide Aside, FreeTree, Transfer, CursorClosed;
    FaultSpares(w, x, t, m);
    FreeTreeSpares(w, q, true, w.next, net, x, t, m);
    if reply.Result? {
      TransferSpares(w, q, reply.q, x, t, m);
      CursorSpares(Transfer(w, q, reply.q), q, net, x, t, m);
      var w1 := CursorClosed(Transfer(w, q, reply.q), q, net);
      FreeTreeSpares(w1, q, true, w1.next, net, x, t, m);
    }
  }

  lemma TransferSpares(w: World, q: Addr, r: Addr, x: Work, t: Addr, m: Mark)
    requires Aside(w, x, t, m)
    ensures Aside(Transfer(w, q, r), x, t, m)
  {
    hide Aside;
    FaultSpares(w, x, t, m);
    if q in w.queries && r in w.queries { QueriesSpare(w, HandedOver(w.queries, q, r), x, t, m); }
  }

  lemma QueryAutocommitSpares(w: World, q: Addr, l: Addr, u: Addr, explicit: bool, reply: Reply, net: Net, x: Work,
                              t: Addr, m: Mark)
    requires Aside(w, x, t, m) && (!explicit ==> u != t)
    ensures Aside(QueryAutocommit(w, q, l, u, explicit, reply, net), x, t, m)
  {
    hide Aside, AutoCommit;
    FaultSpares(w, x, t, m);
    if !explicit && q in w.queries { AutoCommitSpares(w, u, w.queries[q].kind.Ddl?, net, x, t, m); }
  }

  /** A statement that does not ask for a commit of `t` when it runs on `u`. */
  ghost predicate MildOn(w: World, u: Addr, explicit: bool, kind: Kind, t: Addr) {
    u == t ==>
        explicit && !kind.CommitSql? && !(kind.Ddl? && (w.rules.autoDdl || (t in w.trans && w.trans[t].count > 0)))
  }

  lemma RunOnceSpares(w: World, l: Addr, u: Addr, explicit: bool, kind: Kind, form: Form, input: Input, net: Net,
                      x: Work, t: Addr, m: Mark)
    requires Aside(w, x, t, m) && !m.Spent? && Inv(w, None) && l in w.links && Fits(w, l, explicit, u, None)
    requires MildOn(w, u, explicit, kind, t)
    ensures Freed(RunOnce(w, l, u, explicit, kind, form, input, net), x, t, m)
  {
    hide Aside, Inv, Prepare, Exec, FreeTree, Settle, QueryAutocommit;
    PrepareSpares(w, l, u, explicit, kind, form, net, x, t, m);
    PrepareKeeps(w, l, u, explicit, kind, form, net, None);
    PrepareMild(w, l, u, explicit, kind, form, net, t);
    var (q, w1) := Prepare(w, l, u, explicit, kind, form, net);
    if q.Some? {
      ExecSpares(w1, q.value, input, net, x, t, m);
      var (reply, w2) := Exec(w1, q.value, input, net);
      FreeTreeSpares(w2, q.value, true, w2.next, net, x, t, m);
      QueryAutocommitSpares(w2, q.value, l, u, explicit, reply, net, x, t, m);
      SettleSpares(QueryAutocommit(w2, q.value, l, u, explicit, reply, net), q.value, reply, net, x, t, m);
    }
  }

  /** Preparing changes no counter and no setting. */
  lemma PrepareMild(w: World, l: Addr, u: Addr, explicit: bool, kind: Kind, form: Form, net: Net, t: Addr)
    ensures var (q, w1) := Prepare(w, l, u, explicit, kind, form, net);
            q.Some? ==> w1.rules == w.rules && (t in w1.trans ==> t in w.trans && w1.trans[t].count == w.trans[t].count)
  {
    hide FreeTree, Adopted, Describe, AttachStmt;
    var w1 := NewQuery(w, u, FreshQuery(l, explicit, kind));
    DescribeMild(AttachStmt(Tick(w1), w.next), w.next, form, net, t);
    AttachMild(Tick(w1), w.next, t);
  }

  ghost predicate Mild(w: World, w1: World, t: Addr) {
    w1.rules == w.rules && (t in w1.trans ==> t in w.trans && w1.trans[t].count == w.trans[t].count)
  }

  lemma DescribeMild(w: World, q: Addr, form: Form, net: Net, t: Addr)
    ensures var (r, w1) := Describe(w, q, form, net); r.Some? ==> Mild(w, w1, t)
  {
    hide FreeTree;
  }

  lemma AttachMild(w: World, q: Addr, t: Addr)
    ensures Mild(w, AttachStmt(w, q), t)
  {}

  lemma ExecuteAutoSpares(w: World, l: Addr, kind: Kind, form: Form, input: Input, net: Net, x: Work, t: Addr, m: Mark)
    requires Aside(w, x, t, m) && !m.Spent? && Inv(w, None) && l in w.links
    ensures Freed(ExecuteAuto(w, l, kind, form, input, net), x, t, m)
  {
    hide Aside, Inv, Prepare, Exec, FreeTree, EndAndDrop, DetachAndFree;
    FaultSpares(w, x, t, m);
    if net(w.tick) {
      var u := w.next;
      var tr := FreshTrans(l, false, [], true, Some(Handle([], [], false)));
      var w0 := Tick(w).(trans := w.trans[u := tr], next := u + 1);
      AuxSpares(w, l, tr, x, t, m);
      AuxKeeps(Tick(w), l, u, tr) by { TickKeeps(w, None); }
      AutoPrepareSpares(w0, l, u, kind, form, net, x, t, m);
      var (q, w1) := Prepare(w0, l, u, false, kind, form, net);
      if q.Some? { AutoRunSpares(w1, q.value, u, input, net, x, t, m); }
    }
  }

  /** The first half of fbird_execute_auto, on its own transaction `u`. */
  lemma AutoPrepareSpares(w: World, l: Addr, u: Addr, kind: Kind, form: Form, net: Net, x: Work, t: Addr, m: Mark)
    requires Aside(w, x, t, m) && !m.Spent? && Inv(w, Some(u)) && l in w.links && Fits(w, l, false, u, Some(u)) &&
             u != t
    ensures var (q, w1) := Prepare(w, l, u, false, kind, form, net);
            && Freed(DetachAndFree(EndAndDrop(w1, u, true, false, net), u), x, t, m)
            && (q.Some? ==> Aside(w1, x, t, m) && q.value in w1.queries && w1.queries[q.value].trans == Some(u))
  {
    hide Aside, Inv, Prepare, EndAndDrop, DetachAndFree;
    PrepareSpares(w, l, u, false, kind, form, net, x, t, m);
    PrepareKeeps(w, l, u, false, kind, form, net, Some(u));
    AuxDropSpares(Prepare(w, l, u, false, kind, form, net).1, u, false, net, x, t, m);
  }

  /** The second half of fbird_execute_auto, on its own transaction `u`. */
  lemma AutoRunSpares(w: World, q: Addr, u: Addr, input: Input, net: Net, x: Work, t: Addr, m: Mark)
    requires Aside(w, x, t, m) && !m.Spent? && q in w.queries && w.queries[q].trans == Some(u) && u != t
    ensures var (reply, w2) := Exec(w, q, input, net);
            Freed(DetachAndFree(EndAndDrop(FreeQuery(w2, q, net), u, true, reply.Done?, net), u), x, t, m)
  {
    hide Aside, Exec, FreeTree, EndAndDrop, DetachAndFree;
    ExecSpares(w, q, input, net, x, t, m);
    var (reply, w2) := Exec(w, q, input, net);
    FreeTreeSpares(w2, q, true, w2.next, net, x, t, m);
    AuxDropSpares(FreeQuery(w2, q, net), u, reply.Done?, net, x, t, m);
  }

  lemma AuxDropSpares(w: World, u: Addr, commit: bool, net: Net, x: Work, t: Addr, m: Mark)
    requires Freed(w, x, t, m) && u != t
    ensures Freed(DetachAndFree(EndAndDrop(w, u, true, commit, net), u), x, t, m)
  {
    hide Aside, EndAndDrop, DetachAndFree;
    var k := if Aside(w, x, t, m) then m else Spent;
    EndAndDropSpares(w, u, true, commit, net, x, t, k);
    DetachSpares(EndAndDrop(w, u, true, commit, net), u, x, t, k);
  }

  lemma AuxSpares(w: World, l: Addr, tr: Trans, x: Work, t: Addr, m: Mark)
    requires Aside(w, x, t, m) && tr.handle == Some(Handle([], [], false))
    ensures Aside(Tick(w).(trans := w.trans[w.next := tr], next := w.next + 1), x, t, m) && t != w.next
  {}

  lemma ExhaustSpares(w: World, q: Addr, net: Net, x: Work, t: Addr, m: Mark)
    requires Aside(w, x, t, m)
    ensures Aside(Exhaust(w, q, net), x, t, m)
  {
    hide Aside, CursorClosed, SetMore;
    FlagSpares(w, q, x, t, m);
    CursorSpares(SetMore(w, q, false), q, net, x, t, m);
  }

  lemma FetchSpares(w: World, q: Addr, contents: seq<Column>, net: Net, x: Work, t: Addr, m: Mark)
    requires Aside(w, x, t, m)
    ensures Aside(Fetch(w, q, contents, net), x, t, m)
  {
    hide Aside, FetchCursor, ReadContents;
    FetchCursorSpares(w, q, net, x, t, m);
    var w1 := FetchCursor(w, q, net).1;
    AsideIs(w1, x, t, m);
    ListsSpare(w1, ReadContents(w1, q, contents, net), x, t, m);
  }

  lemma FetchCursorSpares(w: World, q: Addr, net: Net, x: Work, t: Addr, m: Mark)
    requires Aside(w, x, t, m)
    ensures Aside(FetchCursor(w, q, net).1, x, t, m)
  {
    hide Aside, Exhaust, UseStmt;
    FaultSpares(w, x, t, m);
    ExhaustSpares(w, q, net, x, t, m);
    if q in w.queries && w.queries[q].stmt.Some? {
      StmtSpares(w, q, w.queries[q].stmt.value, x, t, m);
      var w1 := UseStmt(w, w.queries[q].stmt.value);
      FaultSpares(w1, x, t, m);
      FaultSpares(Tick(w1), x, t, m);
      ExhaustSpares(Tick(Tick(w1)), q, net, x, t, m);
    }
  }

  // ------------------------------------------------------------ links, tables, batches

  lemma CloseNodeSpares(w: World, l: Addr, alive: bool, net: Net, x: Work, t: Addr, m: Mark)
    requires Aside(w, x, t, m) && !m.Spent?
    ensures Aside(CloseNode(w, l, alive, net), x, t, m)
  {
    hide Aside, EndAndDrop, DetachAndFree;
    FaultSpares(w, x, t, m);
    PopSpares(w, l, x, t, m);
    if l in w.links && w.links[l].trs != [] && w.links[l].trs[0].Some? && w.links[l].trs[0].value in w.trans {
      var u := w.links[l].trs[0].value;
      AsideOf(w, u, x, t, m);
      EndAndDropSpares(w, u, alive, w.trans[u].isDefault, net, x, t, m);
      var w1 := EndAndDrop(w, u, alive, w.trans[u].isDefault, net);
      FaultSpares(w1, x, t, m);
      PopSpares(w1, l, x, t, m);
      DetachSpares(PopNode(w1, l), u, x, t, m);
      if u in w1.trans {
        AsideOf(w1, u, x, t, m);
        var link := if w1.trans[u].link == Some(l) then None else w1.trans[u].link;
        SetSpares(PopNode(w1, l), u, w1.trans[u].(link := link), x, t, m);
      }
    }
  }

  lemma PopSpares(w: World, l: Addr, x: Work, t: Addr, m: Mark)
    requires Aside(w, x, t, m)
    ensures Aside(PopNode(w, l), x, t, m)
  {
    hide Aside;
    AsideIs(w, x, t, m);
    ListsSpare(w, PopNode(w, l), x, t, m);
  }

  lemma {:induction false} CloseNodesSpares(w: World, l: Addr, n: nat, alive: bool, net: Net, x: Work, t: Addr, m: Mark)
    requires Aside(w, x, t, m) && !m.Spent?
    ensures Aside(CloseNodes(w, l, n, alive, net), x, t, m)
    decreases n
  {
    hide Aside, CloseNode;
    if n > 0 {
      CloseNodeSpares(w, l, alive, net, x, t, m);
      CloseNodesSpares(CloseNode(w, l, alive, net), l, n - 1, alive, net, x, t, m);
    }
  }

  lemma CloseLinkSpares(w: World, l: Addr, net: Net, x: Work, t: Addr, m: Mark)
    requires Aside(w, x, t, m) && !m.Spent? && l in w.links
    ensures Aside(CloseLink(w, l, net), x, t, m)
  {
    hide Aside, CloseNodes;
    FaultSpares(w, x, t, m);
    CloseNodesSpares(Tick(w), l, |w.links[l].trs|, net(w.tick), net, x, t, m);
    var w1 := CloseNodes(Tick(w), l, |w.links[l].trs|, net(w.tick), net);
    AsideIs(w1, x, t, m);
    ListsSpare(w1, w1.(links := w1.links - {l}), x, t, m);
  }

  lemma DropTableSpares(w: World, u: Addr, net: Net, x: Work, t: Addr, m: Mark)
    requires Aside(w, x, t, m) && !m.Spent? && u != t
    ensures Aside(DropTable(w, u, net), x, t, m)
  {
    hide Aside, AddWork, TryCommit, FreeHandle, DropDefault, UnlinkTrans;
    FaultSpares(w, x, t, m);
    AddWorkSpares(Tick(w), u, Ddl, NOTHING, x, t, m);
    var w1 := AddWork(Tick(w), u, Ddl, NOTHING);
    CommitSpares(w1, u, net, x, t, m);
    var w2 := TryCommit(w1, u, net).1;
    HandleSpares(w2, u, [], net, x, t, m);
    var w3 := FreeHandle(w2, u);
    UnlinkSpares(w3, u, x, t, m);
    DropDefaultSpares(w3, u, x, t, m);
  }

  lemma DropDefaultSpares(w: World, u: Addr, x: Work, t: Addr, m: Mark)
    requires Aside(w, x, t, m) && !m.Spent?
    ensures Aside(DropDefault(w, u), x, t, m)
  {
    hide Aside, DetachAndFree, Blank;
    FaultSpares(w, x, t, m);
    DetachSpares(w, u, x, t, m);
    if u in w.trans && w.trans[u].link.Some? && w.trans[u].link.value in w.links {
      var l := w.trans[u].link.value;
      var w1 := w.(links := w.links[l := w.links[l].(trs := Blank(w.links[l].trs, u))]);
      AsideIs(w, x, t, m);
      ListsSpare(w, w1, x, t, m);
      DetachSpares(w1, u, x, t, m);
    }
  }

  lemma BatchSpares(w: World, b: Addr, net: Net, x: Work, t: Addr, m: Mark)
    requires Aside(w, x, t, m)
    ensures Aside(BatchExecute(w, b, net), x, t, m) && Aside(BatchCancel(w, b, net), x, t, m)
  {
    hide Aside, AddWork;
    FaultSpares(w, x, t, m);
    if b in w.batches {
      var w1 := Tick(w).(batches := w.batches[b := w.batches[b].(wrapper := false)]);
      AsideIs(w, x, t, m);
      ListsSpare(w, w1, x, t, m);
      if w.batches[b].trans.Some? { AddWorkSpares(w1, w.batches[b].trans.value, Dml, NOTHING, x, t, m); }
    }
  }

  lemma BatchFreeSpares(w: World, b: Addr, last: bool, net: Net, x: Work, t: Addr, m: Mark)
    requires Aside(w, x, t, m)
    ensures Freed(BatchFree(w, b, last, net), x, t, m)
  {
    hide Aside, FreeTree, RemoveBatch;
    FaultSpares(w, x, t, m);
    RemoveBatchSpares(w, b, x, t, m);
    if b in w.batches {
      FreeTreeSpares(w, w.batches[b].query, true, w.next, net, x, t, m);
      var w1 := FreeQuery(w, w.batches[b].query, net);
      RemoveBatchSpares(w1, b, x, t, if Aside(w1, x, t, m) then m else Spent);
    }
  }

  lemma UnlistSpares(w: World, b: Addr, u: Addr, x: Work, t: Addr, m: Mark)
    requires Aside(w, x, t, m) && u in w.trans
    ensures Aside(SetT(w, u, w.trans[u].(batches := Without(w.trans[u].batches, b))), x, t, m)
  {
    hide Aside, Without;
    AsideIs(w, x, t, m);
    if m.Spent? { WithoutAbsent(w.trans[t].batches, b); }
    RelistSpares(w, u, w.trans[u].(batches := Without(w.trans[u].batches, b)), x, t, m);
  }

  lemma RemoveBatchSpares(w: World, b: Addr, x: Work, t: Addr, m: Mark)
    requires Aside(w, x, t, m)
    ensures Aside(RemoveBatch(w, b), x, t, m)
  {
    hide Aside, Without;
    FaultSpares(w, x, t, m);
    BatchesSpare(w, w.batches - {b}, x, t, m);
    if b in w.batches && w.batches[b].reg.Some? && w.batches[b].reg.value in w.trans {
      UnlistSpares(w.(batches := w.batches - {b}), b, w.batches[b].reg.value, x, t, m);
    }
  }

  lemma BatchCreateSpares(w: World, q: Addr, explicit: Option<Addr>, net: Net, x: Work, t: Addr, m: Mark)
    requires Aside(w, x, t, m) && !m.Spent?
    ensures Aside(BatchCreate(w, q, explicit, net), x, t, m)
  {
    hide Aside, EnlistBatch, UseStmt;
    FaultSpares(w, x, t, m);
    if q in w.queries && w.queries[q].stmt.Some? {
      StmtSpares(w, q, w.queries[q].stmt.value, x, t, m);
      var w1 := UseStmt(w, w.queries[q].stmt.value);
      FaultSpares(w1, x, t, m);
      var target := if explicit.Some? then explicit else w.queries[q].trans;
      if target.Some? { EnlistSpares(Tick(w1), q, target.value, x, t, m); }
    }
  }

  lemma EnlistSpares(w: World, q: Addr, u: Addr, x: Work, t: Addr, m: Mark)
    requires Aside(w, x, t, m) && !m.Spent?
    ensures Aside(EnlistBatch(w, q, u), x, t, m)
  {
    hide Aside;
    FaultSpares(w, x, t, m);
    if u in w.trans {
      AsideIs(w, x, t, m);
      var w1 := SetT(w, u, w.trans[u].(batches := [w.next] + w.trans[u].batches));
      RelistSpares(w, u, w1.trans[u], x, t, m);
      BatchesSpare(w1, w.batches[w.next := Batch(Some(u), Some(u), q, true)], x, t, m);
      FaultSpares(w1.(batches := w.batches[w.next := Batch(Some(u), Some(u), q, true)]), x, t, m);
    }
  }

  // ------------------------------------------------------------ steps and runs

  /** The calls by which the owner of explicit transaction `t` asks for its work to be made durable: commit,
      commit_ret, SQL COMMIT, metadata-lock release, drop table, and DDL that auto_ddl_commit or an open
      cursor turns into a commit. */
  ghost predicate CommitPoint(w: World, op: Op, t: Addr) {
    match op
    case End(u, mode) => u == t && Commits(mode)
    case EndObject(u, commit) => u == t && commit
    case Release(u) => u == t
    case Drop(on, _) => Names(on, t)
    case Execute(q, _) => q in w.queries && w.queries[q].trans == Some(t) && !MildOn(w, t, true, w.queries[q].kind, t)
    case Once(on, kind, _, _) => Names(on, t) && !MildOn(w, t, true, kind, t)
    case _ => false
  }

  /** The calls that may free a query. */
  predicate FreesQueries(op: Op) { op.Free? || op.FreeBatch? || op.PrepareStmt? || op.Once? || op.Auto? }

  /** The other way: the call frees a query, and that sets off the idle release that a commit_ret has left due.
      The mark is used up, and nothing is enrolled on `t` and no cursor counted any more. */
  predicate ReleasePoint(w: World, op: Op, net: Net, t: Addr) {
    FreesQueries(op) && t in w.trans && w.trans[t].retain &&
    var r := Step(w, op, net);
    t in r.trans && !r.trans[t].retain && r.trans[t].queries == [] && r.trans[t].batches == [] && r.trans[t].count == 0
  }

  /** Everything enrolled on `t` is under `q`. */
  ghost predicate AllUnder(w: World, q: Addr, t: Addr)
    requires t in w.trans
  {
    forall x :: x in w.trans[t].queries ==> Under(w.queries, x, q)
  }

  /** What a caller can see of that beforehand: `t` has the mark and no batch, and the call frees the last query
      enrolled on it.  A call that frees only what it has made itself finds nothing enrolled. */
  ghost predicate MayRelease(w: World, op: Op, t: Addr) {
    t in w.trans && w.trans[t].retain && w.trans[t].batches == [] &&
    match op
    case Free(q) => AllUnder(w, q, t)
    case FreeBatch(b, last) => b in w.batches && last && AllUnder(w, w.batches[b].query, t)
    case PrepareStmt(_, _, _, _) => w.trans[t].queries == []
    case Once(_, _, _, _) => w.trans[t].queries == []
    case Auto(_, _, _, _) => w.trans[t].queries == []
    case _ => false
  }

  lemma FreeNeedsLast(w: World, q: Addr, net: Net, t: Addr)
    requires Inv(w, None) && Fetched(w, q) && t in w.trans && !w.trans[t].isDefault && w.trans[t].retain
    ensures var r := FreeQuery(w, q, net);
            t in r.trans && (!r.trans[t].retain && r.trans[t].queries == [] ==>
                w.trans[t].batches == [] && AllUnder(w, q, t))
  {
    hide Inv, FreeTree, Removed;
    FreeQueryKeeps(w, q, net, None);
    FreeRemoves(w, q, net, None);
    TreeQuiet(w, q, true, w.next, net);
    ListLeft(w, FreeQuery(w, q, net), q, t);
    if w.trans[t].batches != [] { TreeCarries(w, q, true, w.next, net, t); }
  }

  lemma RemovalKeeps(w: World, b: Addr, t: Addr)
    requires t in w.trans
    ensures var r := RemoveBatch(w, b);
            t in r.trans && r.trans[t].retain == w.trans[t].retain && r.trans[t].queries == w.trans[t].queries
  {
    hide Without;
  }

  lemma TargetsUse(w: World, on: Target, kind: Kind, form: Form, input: Input, net: Net, y: User, t: Addr)
    requires Inv(w, None) && Live(w, on) && Uses(w, y, t)
    ensures Uses(RunTarget(w, on, kind, form, input, net), y, t) &&
            Uses(PrepareTarget(w, on, kind, form, input.dflt, net), y, t)
  {
    hide Inv, DefTrans, RunOnce, Prepare, Uses;
    FaultUses(w, y, t);
    ResolveKeeps(w, on, input.dflt, net);
    if on.OnLink? { DefTransUses(w, on.l, input.dflt, net, y, t); }
    var (r, w1) := Resolve(w, on, input.dflt, net);
    if r.Some? {
      RunOnceUses(w1, r.value.0, r.value.1, !on.OnLink?, kind, form, input, net, y, t);
      PrepareUses(w1, r.value.0, r.value.1, !on.OnLink?, kind, form, net, None, y, t);
    }
  }

  /** A call that only frees what it has made leaves somebody enrolled where somebody was. */
  lemma OwnFreedOnly(w: World, op: Op, net: Net, t: Addr)
    requires Inv(w, None) && Accepted(w, op) && (op.PrepareStmt? || op.Once? || op.Auto?) && t in w.trans
    ensures var r := Perform(w, op, net);
            w.trans[t].queries != [] || w.trans[t].batches != [] ==>
              t in r.trans && (r.trans[t].queries != [] || r.trans[t].batches != [])
  {
    hide Inv, PrepareTarget, RunTarget, ExecuteAuto, Uses;
    if w.trans[t].queries == [] && w.trans[t].batches == [] { return; }
    var y := ListedUser(w, t, None);
    match op {
      case PrepareStmt(on, kind, form, dflt) =>
        TargetsUse(w, on, kind, form, Input(0, false, true, dflt, NOTHING), net, y, t);
        TargetsKeep(w, on, kind, form, Input(0, false, true, dflt, NOTHING), net);
      case Once(on, kind, form, input) =>
        TargetsUse(w, on, kind, form, input, net, y, t);
        TargetsKeep(w, on, kind, form, input, net);
      case Auto(l, kind, form, input) =>
        AutoUses(w, l, kind, form, input, net, y, t);
        ExecuteAutoKeeps(w, l, kind, form, input, net);
    }
    UserListed(Perform(w, op, net), y, t, None);
  }

  /** An idle release needs the last query to go. */
  lemma ReleaseNeedsLast(w: World, op: Op, net: Net, t: Addr)
    requires Inv(w, None) && FetchedFirst(w, op) && t in w.trans && !w.trans[t].isDefault && ReleasePoint(w, op, net, t)
    ensures MayRelease(w, op, t)
  {
    hide Inv, PrepareTarget, RunTarget, ExecuteAuto, FreeTree, RemoveBatch, AllUnder;
    assert Accepted(w, op);
    if op.Free? { FreeNeedsLast(w, op.q, net, t); }
    else if op.FreeBatch? {
      var (q, b) := (w.batches[op.b].query, op.b);
      RemovalKeeps(w, b, t);
      if op.last && q in w.queries {
        FreeNeedsLast(w, q, net, t);
        RemovalKeeps(FreeQuery(w, q, net), b, t);
      }
    } else { OwnFreedOnly(w, op, net, t); }
  }

  lemma ExecuteSpares(w: World, q: Addr, input: Input, net: Net, x: Work, t: Addr, m: Mark)
    requires Inv(w, None) && Aside(w, x, t, m) && !m.Spent? && q in w.queries && !CommitPoint(w, Execute(q, input), t)
    ensures Aside(Exec(w, q, input, net).1, x, t, m)
  {
    hide Inv, Exec;
    QueryLive(w, q, None);
    ExecSpares(w, q, input, net, x, t, m);
  }

  lemma TargetsSpare(w: World, on: Target, kind: Kind, form: Form, input: Input, net: Net, x: Work, t: Addr, m: Mark)
    requires Inv(w, None) && Aside(w, x, t, m) && !m.Spent? && Live(w, on)
    ensures Freed(PrepareTarget(w, on, kind, form, input.dflt, net), x, t, m)
    ensures !CommitPoint(w, Once(on, kind, form, input), t) ==> Freed(RunTarget(w, on, kind, form, input, net), x, t, m)
    ensures !Names(on, t) ==> Aside(DropTarget(w, on, input.dflt, net), x, t, m)
  {
    hide Inv, Aside, DefTrans, RunOnce, Prepare, DropTable;
    FaultSpares(w, x, t, m);
    ResolveKeeps(w, on, input.dflt, net);
    if on.OnLink? { DefTransSpares(w, on.l, input.dflt, net, x, t, m); }
    var (r, w1) := Resolve(w, on, input.dflt, net);
    if r.Some? {
      var (l, u) := r.value;
      PrepareSpares(w1, l, u, !on.OnLink?, kind, form, net, x, t, m);
      match on {
        case OnTrans(v) => assert u == v;
        case OnBoth(_, v) => assert u == v;
        case OnLink(k) => assert Some(u) == DefTrans(w, k, input.dflt, net).0 && u != t;
      }
      if u != t { DropTableSpares(w1, u, net, x, t, m); }
      if MildOn(w1, u, !on.OnLink?, kind, t) { RunOnceSpares(w1, l, u, !on.OnLink?, kind, form, input, net, x, t, m); }
    }
  }

  lemma StartSpares(w: World, l: Addr, started: seq<Byte>, stored: seq<Byte>, net: Net, x: Work, t: Addr, m: Mark)
    requires Aside(w, x, t, m) && l in w.links
    ensures Aside(StartOn(w, l, started, stored, net), x, t, m)
  {
    hide Aside;
    FaultSpares(w, x, t, m);
    NewTransSpares(Tick(w), l, FreshTrans(l, false, stored, started == stored, Some(Handle(started, [], false))), x,
                   t, m);
  }

  lemma FreeingSpares(w: World, op: Op, net: Net, x: Work, t: Addr, m: Mark)
    requires Inv(w, None) && Aside(w, x, t, m) && !m.Spent? && !CommitPoint(w, op, t) && Accepted(w, op) &&
             FreesQueries(op)
    ensures Freed(Perform(w, op, net), x, t, m)
  {
    hide Inv, Aside, PrepareTarget, RunTarget, ExecuteAuto, FreeTree, BatchFree;
    match op {
      case PrepareStmt(on, kind, form, dflt) => TargetsSpare(w, on, kind, form, Input(0, false, true, dflt, NOTHING),
                                                             net, x, t, m);
      case Once(on, kind, form, input) => TargetsSpare(w, on, kind, form, input, net, x, t, m);
      case Auto(l, kind, form, input) => ExecuteAutoSpares(w, l, kind, form, input, net, x, t, m);
      case Free(q) => FreeTreeSpares(w, q, true, w.next, net, x, t, m);
      case FreeBatch(b, last) => BatchFreeSpares(w, b, last, net, x, t, m);
    }
  }

  lemma EndingSpares(w: World, op: Op, net: Net, x: Work, t: Addr, m: Mark)
    requires Inv(w, None) && Aside(w, x, t, m) && !m.Spent? && !CommitPoint(w, op, t) && Accepted(w, op)
    requires op.End? || op.EndObject? || op.Release? || op.DestroyTrans? || op.Drop? || op.Close?
    ensures Aside(Perform(w, op, net), x, t, m)
  {
    hide Inv, Aside, TransEnd, EndAndDrop, CommitRestart, FreeTrans, DropTarget, CloseLink;
    match op {
      case End(u, mode) => TransEndSpares(w, u, mode, net, x, t, m);
      case EndObject(u, commit) => EndAndDropSpares(w, u, true, commit, net, x, t, m);
      case Release(u) =>
        FaultSpares(w, x, t, m);
        CommitRestartSpares(w, u, net, x, t, m);
      case DestroyTrans(u) => FreeTransSpares(w, u, net, x, t, m);
      case Drop(on, dflt) => TargetsSpare(w, on, Ddl, Form(0, 0), Input(0, false, true, dflt, NOTHING), net, x, t, m);
      case Close(l) => CloseLinkSpares(w, l, net, x, t, m);
    }
  }

  lemma StartingSpares(w: World, op: Op, net: Net, x: Work, t: Addr, m: Mark)
    requires Inv(w, None) && Aside(w, x, t, m) && !m.Spent? && Accepted(w, op)
    requires op.Connect? || op.StartTrans? || op.StartLegacy? || op.TouchDefault?
    ensures Aside(Perform(w, op, net), x, t, m)
  {
    hide Inv, Aside, StartOn, DefTrans, LegacyTrans.Asked;
    match op {
      case Connect(persistent) =>
        LinksSpare(w, w.links[w.next := Link(persistent, [])], x, t, m);
        FaultSpares(w.(links := w.links[w.next := Link(persistent, [])]), x, t, m);
      case StartTrans(l, tpb) => StartSpares(w, l, tpb, tpb, net, x, t, m);
      case StartLegacy(args, fallback, build, junk) =>
        var r := LegacyTrans.Asked(args, fallback, build, junk);
        if r.Some? { StartSpares(w, r.value.l, r.value.started, r.value.stored, net, x, t, m); }
      case TouchDefault(l, dflt) => DefTransSpares(w, l, dflt, net, x, t, m);
    }
  }

  lemma UsingSpares(w: World, op: Op, net: Net, x: Work, t: Addr, m: Mark)
    requires Inv(w, None) && Aside(w, x, t, m) && !m.Spent? && !CommitPoint(w, op, t) && Accepted(w, op)
    requires op.Execute? || op.FetchRow? || op.NewBatch? || op.ExecuteBatch? || op.CancelBatch?
    ensures Aside(Perform(w, op, net), x, t, m)
  {
    hide Inv, Aside, Exec, Fetch, BatchCreate, BatchExecute, BatchCancel;
    match op {
      case Execute(q, input) => ExecuteSpares(w, q, input, net, x, t, m);
      case FetchRow(q, contents) => FetchSpares(w, q, contents, net, x, t, m);
      case NewBatch(q, explicit) => BatchCreateSpares(w, q, explicit, net, x, t, m);
      case ExecuteBatch(b) => BatchSpares(w, b, net, x, t, m);
      case CancelBatch(b) => BatchSpares(w, b, net, x, t, m);
    }
  }

  lemma StepSpares(w: World, op: Op, net: Net, x: Work, t: Addr, m: Mark)
    requires Inv(w, None) && Aside(w, x, t, m) && !m.Spent? && !CommitPoint(w, op, t)
    ensures Freed(Step(w, op, net), x, t, m)
    ensures !FreesQueries(op) ==> Aside(Step(w, op, net), x, t, m)
  {
    hide Inv, Aside, Perform, CommitPoint, Accepted;
    if Accepted(w, op) {
      if FreesQueries(op) { FreeingSpares(w, op, net, x, t, m); }
      else if op.Connect? || op.StartTrans? || op.StartLegacy? || op.TouchDefault? {
        StartingSpares(w, op, net, x, t, m);
      }
      else if op.Execute? || op.FetchRow? || op.NewBatch? || op.ExecuteBatch? || op.CancelBatch? {
        UsingSpares(w, op, net, x, t, m);
      }
      else { EndingSpares(w, op, net, x, t, m); }
    }
  }

  /** Work that is pending on an explicit transaction is aside; without a mark it cannot be spent. */
  lemma PendingIsAside(w: World, x: Work, t: Addr)
    requires Inv(w, None) && t in w.trans && !w.trans[t].isDefault && x in Pending(w.trans, t)
    ensures Aside(w, x, t, if w.trans[t].retain then Allowed else Unset)
  {
    assert Numbered(Pending(w.trans, t), w.next) && Apart(Pending(w.trans, t), w.durable);
    forall u | u in w.trans && u != t ensures x !in Pending(w.trans, u) {
      assert Apart(Pending(w.trans, t), Pending(w.trans, u));
    }
    forall q | q in w.queries && w.queries[q].trans == Some(t) ensures q in w.trans[t].queries {
      assert QueryEnrolled(w.trans, w.queries[q], q);
    }
  }

  /** The state of the mark that `t` has in `w`. */
  function MarkOf(w: World, t: Addr): Mark { if t in w.trans && w.trans[t].retain then Allowed else Unset }

  /** A step that is neither a commit point nor a release point keeps the work aside. */
  lemma StepKeepsAside(w: World, op: Op, net: Net, x: Work, t: Addr, m: Mark)
    requires Inv(w, None) && Aside(w, x, t, m) && !m.Spent? && !CommitPoint(w, op, t)
    requires m.Allowed? ==> !ReleasePoint(w, op, net, t)
    ensures Aside(Step(w, op, net), x, t, m)
  {
    hide Inv, Aside, Step, CommitPoint;
    StepSpares(w, op, net, x, t, m);
    if !Aside(Step(w, op, net), x, t, m) {
      SpentMark(Step(w, op, net), x, t);
      if MarkOf(w, t).Unset? {
        Narrower(w, x, t);
        StepSpares(w, op, net, x, t, Unset);
        Wider(Step(w, op, net), x, t);
      }
    }
  }

  lemma SpentMark(w: World, x: Work, t: Addr)
    requires Aside(w, x, t, Spent)
    ensures t in w.trans && Emptied(w.trans[t])
  {}

  lemma Narrower(w: World, x: Work, t: Addr)
    requires Aside(w, x, t, Allowed) && MarkOf(w, t).Unset?
    ensures Aside(w, x, t, Unset)
  {}

  lemma Wider(w: World, x: Work, t: Addr)
    requires Aside(w, x, t, Unset)
    ensures Aside(w, x, t, Allowed)
  {}

  /** No call of the run asks for a commit of `t`, and none frees the last query of `t` once that is marked. */
  ghost predicate NoWayOut(w: World, ops: seq<Op>, t: Addr, net: Net, m: Mark)
    decreases |ops|
  {
    ops != [] ==>
      && !CommitPoint(w, ops[0], t) && (m.Allowed? ==> !MayRelease(w, ops[0], t))
      && NoWayOut(Step(w, ops[0], net), ops[1..], t, net, m)
  }

  lemma {:induction false} RunKeepsAside(w: World, ops: seq<Op>, net: Net, x: Work, t: Addr, m: Mark)
    requires Inv(w, None) && CarefulRun(w, ops, net) && Aside(w, x, t, m) && !m.Spent? && NoWayOut(w, ops, t, net, m)
    ensures Aside(Run(w, ops, net), x, t, m)
    decreases |ops|
  {
    hide Inv, Aside, Step, CommitPoint, ReleasePoint, MayRelease, FetchedFirst;
    if ops != [] {
      StepKeeps(w, ops[0], net);
      if ReleasePoint(w, ops[0], net, t) {
        MarkedBefore(w, ops[0], net, x, t, m);
        ReleaseNeedsLast(w, ops[0], net, t);
      }
      StepKeepsAside(w, ops[0], net, x, t, m);
      RunKeepsAside(Step(w, ops[0], net), ops[1..], net, x, t, m);
    }
  }

  lemma MarkedBefore(w: World, op: Op, net: Net, x: Work, t: Addr, m: Mark)
    requires Aside(w, x, t, m) && ReleasePoint(w, op, net, t)
    ensures t in w.trans && !w.trans[t].isDefault
  {
    hide Step;
  }

  /** Nothing is committed behind the caller's back: whatever an explicit transaction has pending, no run
      without one of its commit points makes it durable or moves it to another transaction.  Once a
      commit_ret has marked the transaction, the run must also not free the last query enrolled on it. */
  lemma NothingBehindTheCaller(w: World, ops: seq<Op>, net: Net, x: Work, t: Addr)
    requires Inv(w, None) && CarefulRun(w, ops, net) && NoWayOut(w, ops, t, net, MarkOf(w, t))
    requires t in w.trans && !w.trans[t].isDefault && x in Pending(w.trans, t)
    ensures var r := Run(w, ops, net);
            x !in r.durable && forall u :: u in r.trans && u != t ==> x !in Pending(r.trans, u)
  {
    PendingIsAside(w, x, t);
    RunKeepsAside(w, ops, net, x, t, MarkOf(w, t));
  }

  /** Step by step: pending work of an explicit transaction becomes durable at a commit point, or by the
      idle release that a commit_ret has left due, when the last query enrolled on it is freed. */
  lemma OnlyKnownWays(w: World, op: Op, net: Net, x: Work, t: Addr)
    requires Inv(w, None) && t in w.trans && !w.trans[t].isDefault && x in Pending(w.trans, t)
    requires x in Step(w, op, net).durable
    ensures CommitPoint(w, op, t) || (ReleasePoint(w, op, net, t) && (FetchedFirst(w, op) ==> MayRelease(w, op, t)))
  {
    hide Inv, Step, CommitPoint, ReleasePoint, MayRelease, FetchedFirst;
    if ReleasePoint(w, op, net, t) && FetchedFirst(w, op) { ReleaseNeedsLast(w, op, net, t); }
    if !CommitPoint(w, op, t) && !ReleasePoint(w, op, net, t) {
      PendingIsAside(w, x, t);
      StepKeepsAside(w, op, net, x, t, MarkOf(w, t));
    }
  }
}
