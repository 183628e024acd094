/** What retained locks and their mark mean for a transaction, and that every function keeps it but for stated
    exceptions. */
module RetentionHolds {
  import opened State
  import opened Transactions
  import opened Queries
  import opened Steps
  import LegacyTrans
  import opened Invariant
  import opened TransactionsKeep
  import opened StructureKeeps
  import opened LinksKeep
  import opened QueriesKeep
  import opened ExecKeeps
  import opened StepsKeep
  import opened Outcomes
  import opened Cascade

  predicate Enrolls(tr: Trans) { tr.queries != [] || tr.batches != [] }

  /** An explicit transaction with a live handle. */
  predicate Started(tr: Trans) { !tr.isDefault && tr.handle.Some? }

  /** Locks or a mark that an earlier retaining commit or rollback has left. */
  predicate Retains(tr: Trans) { Started(tr) && (tr.handle.value.locks || tr.retain) }

  /** No explicit transaction holds retained locks, or the mark of them, that nobody is left to release: it has the
      mark, and something is enrolled whose going will set off the release. */
  ghost predicate Released(w: World) {
    w.wrapped || forall t :: t in w.trans && Retains(w.trans[t]) ==> w.trans[t].retain && Enrolls(w.trans[t])
  }

  /** The mark means locks, so that a release is never due where there is nothing to release. */
  ghost predicate Marked(w: World) {
    w.wrapped || forall t :: t in w.trans && Started(w.trans[t]) && w.trans[t].retain ==> w.trans[t].handle.value.locks
  }

  // ------------------------------------------------------------ both at once, with exceptions

  /** Transactions whose locks may be left behind (`locks`) or whose mark may be stale (`marks`), and the queries
      that stay (`kept`). */
  datatype Spared = Spared(locks: iset<Addr>, marks: iset<Addr>, kept: iset<Addr>)

  ghost const ALL: iset<Addr> := iset x: Addr | true

  ghost predicate Anchored(tr: Trans, kept: iset<Addr>) { tr.batches != [] || exists x :: x in tr.queries && x in kept }

  ghost predicate HeldTrans(tr: Trans, t: Addr, X: Spared) {
    Started(tr) ==>
      && (tr.retain ==> Enrolls(tr) && (tr.handle.value.locks || t in X.marks))
      && (tr.handle.value.locks ==> t in X.locks || (tr.retain && Anchored(tr, X.kept)))
  }

  ghost predicate Held(w: World, X: Spared) { w.wrapped || forall t :: t in w.trans ==> HeldTrans(w.trans[t], t, X) }

  /** All but `t`. */
  ghost predicate HeldBut(w: World, t: Addr, X: Spared) {
    w.wrapped || forall u :: u in w.trans && u != t ==> HeldTrans(w.trans[u], u, X)
  }

  /** Query `q` may go: it is not one that stays. */
  ghost predicate Freeable(q: Addr, X: Spared) { q !in X.kept }

  // ------------------------------------------------------------ transactions

  lemma SetHolds(w: World, t: Addr, tr: Trans, X: Spared)
    requires Held(w, X) && HeldTrans(tr, t, X)
    ensures Held(SetT(w, t, tr), X)
  {}

  lemma HeldOf(w: World, t: Addr, X: Spared)
    requires Held(w, X) && t in w.trans
    ensures w.wrapped || HeldTrans(w.trans[t], t, X)
  {}

  /** Nothing about a transaction matters here but its mark, its handle and its two lists. */
  lemma LikeHolds(w: World, w1: World, X: Spared)
    requires Held(w, X) && (w.wrapped ==> w1.wrapped)
    requires forall t :: t in w1.trans && Retains(w1.trans[t]) ==>
               t in w.trans && (HeldTrans(w.trans[t], t, X) ==> HeldTrans(w1.trans[t], t, X))
    ensures Held(w1, X)
  {
    if !w1.wrapped {
      forall t | t in w1.trans ensures HeldTrans(w1.trans[t], t, X) { if Retains(w1.trans[t]) { HeldOf(w, t, X); } }
    }
  }

  lemma EndHolds(w: World, t: Addr, net: Net, X: Spared)
    requires Held(w, X)
    ensures Held(TryCommit(w, t, net).1, X) && Held(TryRollback(w, t, net).1, X)
  {
    hide Held, Put, SameLayout, OnlyTrans;
    FaultHolds(w, X);
    if t in w.trans && w.trans[t].handle.Some? {
      EndIs(w, t, net);
      HeldOf(w, t, X);
      var (tr, h) := (w.trans[t], w.trans[t].handle.value);
      PutHolds(w, t, tr.(handle := Some(h.(pending := []))), w.durable + h.pending, w.tick + 1, X);
      PutHolds(w, t, tr.(handle := Some(h.(pending := []))), w.durable, w.tick + 1, X);
    }
  }

  lemma HandleHolds(w: World, t: Addr, X: Spared)
    requires Held(w, X)
    ensures Held(FreeHandle(w, t), X)
  {
    hide Held, SameLayout, OnlyTrans;
    FaultHolds(w, X);
    if t in w.trans { SetHolds(w, t, w.trans[t].(handle := None), X); }
  }

  lemma RestartHolds(w: World, t: Addr, net: Net, X: Spared)
    requires Held(w, X)
    ensures Held(RestartFromTpb(w, t, net).1, X)
  {
    hide SameLayout, OnlyTrans, Held;
    FaultHolds(w, X);
    FaultHolds(Tick(w), X);
    if t in w.trans && w.trans[t].link.Some? && w.trans[t].link.value in w.links {
      RestartPut(w, t, net);
      PutHolds(w, t, w.trans[t].(handle := Some(Handle(w.trans[t].tpb, [], false)), retain := false), w.durable,
               w.tick + 2, X);
    }
  }

  lemma FaultHolds(w: World, X: Spared)
    requires Held(w, X)
    ensures Held(Fault(w), X) && Held(Tick(w), X) && forall k: nat :: Held(w.(tick := k), X)
  {}

  lemma PutHolds(w: World, t: Addr, tr: Trans, durable: seq<Work>, tick: nat, X: Spared)
    requires Held(w, X) && (!w.wrapped ==> HeldTrans(tr, t, X))
    ensures Held(Put(w, t, tr, durable, tick), X)
  {}

  lemma CommitRestartHolds(w: World, t: Addr, net: Net, aux: Option<Addr>, X: Spared)
    requires Held(w, X) && Inv(w, aux) && t in w.trans && w.trans[t].handle.Some?
    ensures Held(CommitRestart(w, t, net).1, X)
  {
    hide Inv, CommitRestart, SameLayout, OnlyTrans, Held, Put;
    IsWorking(w, t, aux);
    CommitRestartIs(w, t, net);
    FaultHolds(w, X);
    var (tr, d) := (w.trans[t], w.durable + w.trans[t].handle.value.pending);
    PutHolds(w, t, tr.(handle := Some(Handle(tr.tpb, [], false)), retain := false), d, w.tick + 3, X);
    PutHolds(w, t, tr.(handle := None), d, w.tick + 3, X);
    PutHolds(w, t, tr.(handle := None), d, w.tick + 2, X);
  }

  lemma RollbackRestartHolds(w: World, t: Addr, net: Net, aux: Option<Addr>, X: Spared)
    requires Held(w, X) && Inv(w, aux) && t in w.trans && w.trans[t].handle.Some? && NothingToRetain(w.trans[t])
    ensures Held(RollbackRestart(w, t, net).1, X)
  {
    hide Inv, RollbackRestart, SameLayout, OnlyTrans, Held, Put;
    IsWorking(w, t, aux);
    RollbackRestartIs(w, t, net);
    FaultHolds(w, X);
    HeldOf(w, t, X);
    var tr := w.trans[t];
    PutHolds(w, t, tr.(handle := Some(Handle(tr.tpb, [], false))), w.durable, w.tick + 2, X);
    PutHolds(w, t, tr.(handle := None), w.durable, w.tick + 2, X);
  }

  lemma PutMends(w: World, t: Addr, tr: Trans, durable: seq<Work>, tick: nat, X: Spared)
    requires HeldBut(w, t, X) && (!w.wrapped ==> HeldTrans(tr, t, X))
    ensures Held(Put(w, t, tr, durable, tick), X)
  {}

  /** A transaction before and after query `q` has left its list. */
  ghost predicate Lost(before: Trans, tr: Trans, q: Addr) { Same(tr, before.(queries := Without(before.queries, q))) }

  /** A query has left `t`, and the release that follows mends what that broke. */
  lemma ReleaseMends(w: World, before: Trans, q: Addr, t: Addr, net: Net, aux: Option<Addr>, X: Spared)
    requires Inv(w, aux) && t in w.trans && w.rules.strict && HeldBut(w, t, X) && Freeable(q, X)
    requires (w.wrapped || HeldTrans(before, t, X)) && Lost(before, w.trans[t], q)
    ensures Held(ReleaseIfIdle(w, t, net), X)
  {
    hide Inv, Held, HeldBut, CommitRestart, SameLayout, OnlyTrans, Put, HeldTrans, Lost, Idle;
    var tr := w.trans[t];
    if Idle(tr) {
      IdleStarted(tr);
      IsWorking(w, t, aux);
      CommitRestartIs(SetT(w, t, tr.(retain := false)), t, net);
      ReleasedMends(w, before, q, t, net, X);
    } else {
      NotIdleHeld(w, before, q, t, net, aux, X);
      PutBack(w, t, X);
    }
  }

  lemma IdleStarted(tr: Trans)
    requires Idle(tr)
    ensures tr.handle.Some? && tr.retain
  {}

  /** The four outcomes of the release. */
  lemma ReleasedMends(w: World, before: Trans, q: Addr, t: Addr, net: Net, X: Spared)
    requires t in w.trans && Idle(w.trans[t]) && HeldBut(w, t, X) && Freeable(q, X)
    requires (w.wrapped || HeldTrans(before, t, X)) && Lost(before, w.trans[t], q)
    ensures var w1 := SetT(w, t, w.trans[t].(retain := false));
            var tr := w1.trans[t];
            && (!net(w.tick) ==> Held(Tick(w1), X))
            && forall d, k: nat ::
                 && Held(Put(w1, t, tr.(handle := None), d, k), X)
                 && Held(Put(w1, t, tr.(handle := Some(Handle(tr.tpb, [], false)), retain := false), d, k), X)
  {
    hide Put, Anchored;
    var w1 := SetT(w, t, w.trans[t].(retain := false));
    var tr := w1.trans[t];
    forall d, k: nat
      ensures Held(Put(w1, t, tr.(handle := None), d, k), X)
      ensures Held(Put(w1, t, tr.(handle := Some(Handle(tr.tpb, [], false)), retain := false), d, k), X)
    {
      PutMends(w1, t, tr.(handle := None), d, k, X);
      PutMends(w1, t, tr.(handle := Some(Handle(tr.tpb, [], false)), retain := false), d, k, X);
    }
    if !w.wrapped && !net(w.tick) { StillAnchored(before, w.trans[t], q, t, X); }
  }

  /** A query that may go was no anchor. */
  lemma StillAnchored(before: Trans, tr: Trans, q: Addr, t: Addr, X: Spared)
    requires HeldTrans(before, t, X) && Freeable(q, X) && Lost(before, tr, q)
    ensures Started(tr) && tr.handle.value.locks && t !in X.locks ==> tr.retain && Anchored(tr, X.kept) && Enrolls(tr)
  {
    hide Without;
    forall x | x in before.queries && x != q ensures x in tr.queries { WithoutIn(before.queries, q, x); }
  }

  lemma PutBack(w: World, t: Addr, X: Spared)
    requires HeldBut(w, t, X) && t in w.trans && (w.wrapped || HeldTrans(w.trans[t], t, X))
    ensures Held(w, X)
  {}

  /** In a strict run the counter does not stand in the way of a release. */
  lemma NotIdleHeld(w: World, before: Trans, q: Addr, t: Addr, net: Net, aux: Option<Addr>, X: Spared)
    requires Inv(w, aux) && t in w.trans && w.rules.strict && !Idle(w.trans[t]) && Freeable(q, X)
    requires (w.wrapped || HeldTrans(before, t, X)) && Lost(before, w.trans[t], q)
    ensures w.wrapped || HeldTrans(w.trans[t], t, X)
  {
    if !w.wrapped {
      CountsNothing(w, t, aux);
      hide Inv;
      StillAnchored(before, w.trans[t], q, t, X);
    }
  }

  /** In a strict run nothing enrolled means a counter of 0. */
  lemma CountsNothing(w: World, t: Addr, aux: Option<Addr>)
    requires Inv(w, aux) && t in w.trans && w.rules.strict && !w.wrapped
    ensures w.trans[t].queries == [] ==> w.trans[t].count == 0
  {
    assert CountOk(w.queries, w.trans[t], true);
  }

  /** A retaining rollback on a transaction without the mark. */
  predicate Unmarked(w: World, t: Addr, mode: Mode) {
    t in w.trans &&
    var tr := w.trans[t];
    && mode.RollbackRet? && !tr.isDefault && !NothingToRetain(tr)
    && if tr.handle.Some? then !tr.retain else tr.link.Some?
  }

  lemma EndSwitchHolds(w: World, t: Addr, mode: Mode, net: Net, aux: Option<Addr>, X: Spared)
    requires Held(w, X) && Inv(w, aux) && t in w.trans && w.trans[t].handle.Some? && w.rules.strict
    requires t in X.locks || (!Unmarked(w, t, mode) && forall x: Addr :: x in X.kept)
    ensures Held(EndSwitch(w, t, mode, net).1, X)
  {
    hide Inv, Held, TryCommit, TryRollback, KeepLocks, CommitRestart, RollbackRestart, SameLayout, OnlyTrans;
    EndHolds(w, t, net, X);
    if mode.RollbackRet? || mode.CommitRet? { RetainingHolds(w, t, mode, net, aux, X); }
  }

  lemma RetainingHolds(w: World, t: Addr, mode: Mode, net: Net, aux: Option<Addr>, X: Spared)
    requires Held(w, X) && Inv(w, aux) && t in w.trans && w.trans[t].handle.Some? && w.rules.strict
    requires (mode.RollbackRet? || mode.CommitRet?) &&
             (t in X.locks || (!Unmarked(w, t, mode) && forall x: Addr :: x in X.kept))
    ensures Held(EndSwitch(w, t, mode, net).1, X)
  {
    hide Inv, Held, EndSwitch, CommitRestart, RollbackRestart, SameLayout, OnlyTrans;
    var tr := w.trans[t];
    HardPathTaken(w, t, net);
    if NothingToRetain(tr) {
      RollbackRestartHolds(w, t, net, aux, X);
      CommitRestartHolds(w, t, net, aux, X);
    } else {
      FaultHolds(w, X);
      SoftRollbackIs(w, t, net);
      SoftHolds(w, t, mode, aux, X);
      var h := tr.handle.value;
      PutHolds(w, t, tr.(handle := Some(Handle(h.tpb, [], true)), retain := mode.CommitRet? || tr.retain),
               if mode.CommitRet? then w.durable + h.pending else w.durable, w.tick + 1, X);
    }
  }

  /** The locks of a soft commit or rollback go with the mark and something enrolled. */
  lemma SoftHolds(w: World, t: Addr, mode: Mode, aux: Option<Addr>, X: Spared)
    requires Held(w, X) && Inv(w, aux) && t in w.trans && w.trans[t].handle.Some? && w.rules.strict &&
             !NothingToRetain(w.trans[t])
    requires (mode.RollbackRet? || mode.CommitRet?) &&
             (t in X.locks || (!Unmarked(w, t, mode) && forall x: Addr :: x in X.kept))
    ensures var tr := w.trans[t];
            w.wrapped || HeldTrans(tr.(handle := Some(Handle(tr.handle.value.tpb, [], true)),
                                       retain := mode.CommitRet? || tr.retain), t, X)
  {
    SomethingToRetain(w, t, aux);
    hide Inv;
    var tr := w.trans[t];
    if tr.queries != [] && forall x: Addr :: x in X.kept { assert tr.queries[0] in X.kept; }
  }

  lemma SoftRollbackIs(w: World, t: Addr, net: Net)
    requires t in w.trans && w.trans[t].handle.Some? && !NothingToRetain(w.trans[t])
    ensures var (tr, h) := (w.trans[t], w.trans[t].handle.value);
            EndSwitch(w, t, RollbackRet, net) ==
              if net(w.tick) then (true, Put(w, t, tr.(handle := Some(Handle(h.tpb, [], true))), w.durable, w.tick + 1))
              else (false, Tick(w))
  {
    hide TryCommitRetaining, TryRollbackRetaining, CommitRestart, RollbackRestart, SameLayout, OnlyTrans;
    RetainingIs(w, t, net);
  }

  lemma SomethingToRetain(w: World, t: Addr, aux: Option<Addr>)
    requires Inv(w, aux) && t in w.trans && w.rules.strict && !NothingToRetain(w.trans[t])
    ensures w.wrapped || w.trans[t].queries != [] || w.trans[t].batches != []
  {
    if !w.wrapped { assert CountOk(w.queries, w.trans[t], true); }
  }

  /** The restart in front of an end loses the mark. */
  lemma UnmarkedAfter(w: World, t: Addr, mode: Mode, net: Net, aux: Option<Addr>)
    requires Inv(w, aux) && t in w.trans && w.trans[t].handle.None?
    ensures var (ok, w1) := RestartFromTpb(w, t, net); ok ==> (Unmarked(w1, t, mode) <==> Unmarked(w, t, mode))
  {
    hide Inv, RestartFromTpb, SameLayout, OnlyTrans;
    LinkLive(w, t, aux);
    if w.trans[t].link.Some? { RestartPut(w, t, net); } else { RestartNeedsLink(w, t, net); }
  }

  lemma TransEndHolds(w: World, t: Addr, mode: Mode, net: Net, aux: Option<Addr>, X: Spared)
    requires Held(w, X) && Inv(w, aux) && t in w.trans && w.rules.strict
    requires t in X.locks || (!Unmarked(w, t, mode) && forall x: Addr :: x in X.kept)
    ensures Held(TransEnd(w, t, mode, net).1, X)
  {
    hide Inv, Held, EndSwitch, RestartFromTpb, OnlyTrans;
    RestartHolds(w, t, net, X);
    RestartKeeps(w, t, net, aux);
    RestartIs(w, t, net);
    if w.trans[t].handle.None? { UnmarkedAfter(w, t, mode, net, aux); }
    var (ready, w1) := if w.trans[t].handle.None? then RestartFromTpb(w, t, net) else (true, w);
    if ready {
      EndSwitchHolds(w1, t, mode, net, aux, X);
      var w2 := EndSwitch(w1, t, mode, net).1;
      if t in w2.trans { SetHolds(w2, t, w2.trans[t].(handle := None, retain := false), X); }
    }
  }

  lemma EndAndDropHolds(w: World, t: Addr, act: bool, commit: bool, net: Net, X: Spared)
    requires Held(w, X)
    ensures Held(EndAndDrop(w, t, act, commit, net), X)
  {
    hide Held, TryCommit, TryRollback, FreeHandle;
    FaultHolds(w, X);
    EndHolds(w, t, net, X);
    HandleHolds(if !act then w else if commit then TryCommit(w, t, net).1 else TryRollback(w, t, net).1, t, X);
  }

  // ------------------------------------------------------------ cursors and lists

  /** Opening and closing cursors leaves marks, handles and lists alone. */
  lemma CursorHolds(w: World, q: Addr, net: Net, aux: Option<Addr>, X: Spared)
    requires Held(w, X) && Inv(w, aux) && q in w.queries
    ensures Held(CursorOpened(w, q), X) && Held(CursorClosed(w, q, net), X) && Held(Shut(w, q, net), X)
  {
    hide Inv, CursorClosed, CursorOpened, SameLayout, OnlyFlags, QueryOnLink;
    QueryLive(w, q, aux);
    OpenedIs(w, q);
    CloseNeverReleases(w, q, net, aux);
    ClosedHolds(w, q, X);
    LikeHolds(w, CursorOpened(w, q), X);
    MoreHolds(CursorClosed(w, q, net), q, false, X);
  }

  lemma ClosedHolds(w: World, q: Addr, X: Spared)
    requires Held(w, X) && q in w.queries
    ensures Held(Closed(w, q), X)
  {
    hide SameLayout;
    LikeHolds(w, Closed(w, q), X);
  }

  lemma MoreHolds(w: World, q: Addr, more: bool, X: Spared)
    requires Held(w, X)
    ensures Held(SetMore(w, q, more), X)
  {}

  lemma EnrollHolds(w: World, q: Addr, t: Addr, X: Spared)
    requires Held(w, X)
    ensures Held(Enroll(w, q, t), X)
  {
    hide Held;
    LikeHolds(w, Enroll(w, q, t), X);
  }

  /** Leaving a transaction without a handle orphans nothing. */
  lemma UnenrollHolds(w: World, q: Addr, X: Spared)
    requires Held(w, X) && q in w.queries
    requires w.queries[q].reg.Some? && w.queries[q].reg.value in w.trans ==>
               w.trans[w.queries[q].reg.value].handle.None?
    ensures Held(Unenroll(w, q), X)
  {
    hide Held, Without;
    LikeHolds(w, Unenroll(w, q), X);
  }

  lemma UnlinkHolds(w: World, t: Addr, X: Spared)
    requires Held(w, X)
    ensures Held(UnlinkTrans(w, t), X)
  {
    hide Held, Without;
    LikeHolds(w, UnlinkTrans(w, t), X);
  }

  lemma DetachHolds(w: World, t: Addr, X: Spared)
    requires Held(w, X)
    ensures Held(DetachAndFree(w, t), X)
  {
    hide Held;
    LikeHolds(w, DetachAndFree(w, t), X);
  }

  lemma NewTransHolds(w: World, l: Addr, tr: Trans, X: Spared)
    requires Held(w, X) && l in w.links && !Retains(tr)
    ensures Held(NewTrans(w, l, tr), X)
  {}

  lemma DefTransHolds(w: World, l: Addr, dflt: seq<Byte>, net: Net, X: Spared)
    requires Held(w, X)
    ensures Held(DefTrans(w, l, dflt, net).1, X)
  {
    hide Held, NewTrans, StartDefault;
    FaultHolds(w, X);
    if Walkable(w, l) {
      FirstDefaultIs(w.trans, w.links[l].trs);
      NewTransHolds(w, l, FreshTrans(l, true, [], true, None), X);
      var (t, w1) := DefaultSlot(w, l);
      SlotIsDefault(w, l);
      StartDefaultHolds(w1, t, dflt, net, X);
    }
  }

  lemma SlotIsDefault(w: World, l: Addr)
    requires l in w.links
    ensures var (t, w1) := DefaultSlot(w, l); t in w1.trans && w1.trans[t].isDefault
  {
    FirstDefaultIs(w.trans, w.links[l].trs);
  }

  lemma StartDefaultHolds(w: World, t: Addr, dflt: seq<Byte>, net: Net, X: Spared)
    requires Held(w, X) && t in w.trans && w.trans[t].isDefault
    ensures Held(StartDefault(w, t, dflt, net).1, X)
  {
    hide Held, SameLayout, OnlyTrans;
    FaultHolds(w, X);
    SetHolds(Tick(w), t, w.trans[t].(handle := Some(Handle(dflt, [], false)), tpb := dflt), X);
  }

  lemma FreeTransHolds(w: World, t: Addr, net: Net, X: Spared)
    requires Held(w, X)
    ensures Held(FreeTrans(w, t, net), X)
  {
    hide Held, EndAndDrop, UnlinkTrans, DetachAndFree;
    FaultHolds(w, X);
    if t in w.trans {
      var pings := w.trans[t].handle.Some? && w.trans[t].link.Some?;
      var w0 := if pings then Tick(w) else w;
      EndAndDropHolds(w0, t, pings && net(w.tick), false, net, X);
      var w1 := EndAndDrop(w0, t, pings && net(w.tick), false, net);
      UnlinkHolds(w1, t, X);
      DetachHolds(UnlinkTrans(w1, t), t, X);
    }
  }

  // ------------------------------------------------------------ freeing queries

  lemma StmtHolds(w: World, q: Addr, s: Addr, X: Spared)
    requires Held(w, X)
    ensures Held(UseStmt(w, s), X) && Held(DropStmt(w, q), X)
  {}

  lemma CloseForFreeHolds(w: World, q: Addr, mirror: bool, net: Net, aux: Option<Addr>, X: Spared)
    requires Held(w, X) && Inv(w, aux) && q in w.queries
    ensures Held(CloseForFree(w, q, mirror, net), X)
  {
    hide Inv, Held, Shut, QueryOnLink, SameLayout;
    QueryLive(w, q, aux);
    if w.queries[q].stmt.Some? && w.queries[q].isOpen {
      CursorHolds(w, q, net, aux, X);
      ShutKeeps(w, q, net, aux);
      if mirror && w.queries[q].parent.Some? { CursorHolds(Shut(w, q, net), w.queries[q].parent.value, net, aux, X); }
    }
  }

  lemma CommitOnFreeHolds(w: World, q: Addr, had: bool, net: Net, X: Spared)
    requires Held(w, X)
    ensures Held(CommitOnFree(w, q, had, net), X)
  {
    hide Held, EndAndDrop, FreeHandle;
    FaultHolds(w, X);
    if q in w.queries && w.queries[q].trans.Some? {
      HandleHolds(Tick(w), w.queries[q].trans.value, X);
      EndAndDropHolds(Tick(w), w.queries[q].trans.value, true, true, net, X);
    }
  }

  lemma ClearedHolds(w: World, q: Addr, mirror: bool, net: Net, aux: Option<Addr>, X: Spared)
    requires Held(w, X) && Inv(w, aux) && q in w.queries
    ensures Held(Cleared(w, q, mirror, net), X)
  {
    hide Inv, Held, CloseForFree, DropStmt, CommitOnFree;
    CloseForFreeHolds(w, q, mirror, net, aux, X);
    StmtHolds(CloseForFree(w, q, mirror, net), q, 0, X);
    CommitOnFreeHolds(DropStmt(CloseForFree(w, q, mirror, net), q), q, w.queries[q].isOpen, net, X);
  }

  /** The removal itself may orphan the transaction; the release that follows it at once mends that. */
  lemma RemovedButFor(w: World, q: Addr, X: Spared)
    requires Held(w, X) && q in w.queries && (w.queries[q].reg.Some? ==> w.queries[q].reg.value in w.trans)
    requires w.queries[q].parent.Some? ==> w.queries[q].parent.value in w.queries
    ensures var (w1, reg) := (RemoveQuery(w, q), w.queries[q].reg);
            && w1.wrapped == w.wrapped
            && if reg.None? then Held(w1, X)
               else
                 && reg.value in w1.trans && HeldBut(w1, reg.value, X)
                 && Lost(w.trans[reg.value], w1.trans[reg.value], q)
  {
    hide Pruned, Without, HeldTrans;
    if w.queries[q].reg.None? { LikeHolds(w, RemoveQuery(w, q), X); }
  }

  lemma DestroyLeafHolds(w: World, q: Addr, mirror: bool, net: Net, aux: Option<Addr>, X: Spared)
    requires Held(w, X) && Inv(w, aux) && w.rules.strict && Fetched(w, q) && w.queries[q].children == [] &&
             Freeable(q, X)
    ensures Held(DestroyLeaf(w, q, mirror, net), X)
  {
    hide Inv, Held, HeldBut, HeldTrans, Freeable, CloseForFree, CommitOnFree, ReleaseIfIdle, RemoveQuery, QueryOnLink,
         DropStmt, Lost;
    QueryLive(w, q, aux);
    ClearedKeeps(w, q, mirror, net, aux);
    ClearedHolds(w, q, mirror, net, aux, X);
    var w2 := Cleared(w, q, mirror, net);
    QueryLive(w2, q, aux);
    RemoveQueryKeeps(w2, q, aux);
    RemoveQueryIs(w2, q);
    RemovedButFor(w2, q, X);
    if w.queries[q].trans.Some? {
      var t := w.queries[q].trans.value;
      HeldOf(w2, t, X);
      ReleaseMends(RemoveQuery(w2, q), w2.trans[t], q, t, net, aux, X);
    }
  }

  /** Everything under `q` may go. */
  ghost predicate TreeFreeable(Q: map<Addr, Query>, q: Addr, X: Spared) {
    forall x :: Under(Q, x, q) ==> Freeable(x, X)
  }

  lemma {:induction false} FreeTreeHolds(w: World, q: Addr, end: nat, net: Net, aux: Option<Addr>, X: Spared)
    requires Held(w, X) && Inv(w, aux) && w.rules.strict && Fetched(w, q) && forall x :: x in w.queries ==> x < end
    requires TreeFreeable(w.queries, q, X)
    ensures Held(FreeTree(w, q, false, end, net), X)
    decreases end - q, 1, 0
  {
    hide Inv, Held, DestroyLeaf, Freeable;
    FreeAllKeeps(w, q, end, net, aux);
    FreeAllHolds(w, q, end, net, aux, X);
    assert Under(w.queries, q, q);
    DestroyLeafHolds(FreeAll(w, q, w.queries[q].children, end, net), q, false, net, aux, X);
  }

  lemma {:induction false} FreeAllHolds(w: World, q: Addr, end: nat, net: Net, aux: Option<Addr>, X: Spared)
    requires Held(w, X) && Inv(w, aux) && w.rules.strict && q in w.queries && forall x :: x in w.queries ==> x < end
    requires TreeFreeable(w.queries, q, X)
    ensures Held(FreeAll(w, q, w.queries[q].children, end, net), X)
    decreases end - q, 0, |w.queries[q].children|
  {
    hide Inv, Held, FreeTree, TreeFreeable, Removed;
    var children := w.queries[q].children;
    if children != [] {
      var c := children[0];
      ChildLive(w, q, c, aux);
      FreeTreeKeeps(w, c, end, net, aux);
      ChildFreeable(w.queries, c, q, X);
      FreeTreeHolds(w, c, end, net, aux, X);
      TreeRemoves(w, c, end, net, aux);
      var w1 := FreeTree(w, c, false, end, net);
      assert w1.queries[q].children == children[1..];
      RestFreeable(w.queries, w1.queries, c, q, X);
      FreeAllHolds(w1, q, end, net, aux, X);
    }
  }

  lemma ChildFreeable(Q: map<Addr, Query>, c: Addr, q: Addr, X: Spared)
    requires TreeFreeable(Q, q, X) && c in Q && Q[c].parent == Some(q) && q < c
    ensures TreeFreeable(Q, c, X)
  {
    hide Freeable;
    forall x | Under(Q, x, c) ensures Freeable(x, X) { UnderChild(Q, x, c, q); }
  }

  lemma RestFreeable(Q: map<Addr, Query>, P: map<Addr, Query>, c: Addr, q: Addr, X: Spared)
    requires TreeFreeable(Q, q, X) && Removed(Q, P, c, true)
    ensures TreeFreeable(P, q, X)
  {
    hide Freeable;
    forall x | Under(P, x, q) ensures Freeable(x, X) { UnderBefore(Q, P, x, q); }
  }

  lemma FreeQueryHolds(w: World, q: Addr, net: Net, aux: Option<Addr>, X: Spared)
    requires Held(w, X) && Inv(w, aux) && w.rules.strict && Fetched(w, q) && TreeFreeable(w.queries, q, X)
    ensures Held(FreeQuery(w, q, net), X)
  {
    hide Inv, Held, DestroyLeaf, Freeable;
    FreshAddress(w, aux);
    FreeAllKeeps(w, q, w.next, net, aux);
    FreeAllHolds(w, q, w.next, net, aux, X);
    assert Under(w.queries, q, q);
    DestroyLeafHolds(FreeAll(w, q, w.queries[q].children, w.next, net), q, true, net, aux, X);
  }

  /** Every query from address `q` on may go: what a call makes, it may free. */
  ghost predicate FreshFreeable(q: Addr, X: Spared) { forall x :: x >= q ==> Freeable(x, X) }

  lemma FreshTree(Q: map<Addr, Query>, next: Addr, q: Addr, X: Spared)
    requires FreshFreeable(next, X) && next <= q
    ensures TreeFreeable(Q, q, X)
  {
    hide Freeable;
    forall x | Under(Q, x, q) ensures Freeable(x, X) { UnderAbove(Q, x, q); }
  }

  // ------------------------------------------------------------ preparing and executing

  lemma NewQueryHolds(w: World, t: Addr, qq: Query, X: Spared)
    requires Held(w, X)
    ensures Held(NewQuery(w, t, qq), X)
  {
    hide Held, Adopted;
    LikeHolds(w, NewQuery(w, t, qq), X);
  }

  lemma AttachHolds(w: World, q: Addr, X: Spared)
    requires Held(w, X)
    ensures Held(AttachStmt(w, q), X)
  {}

  lemma PrepareHolds(w: World, l: Addr, t: Addr, explicit: bool, kind: Kind, form: Form, net: Net, aux: Option<Addr>,
                     X: Spared)
    requires Held(w, X) && Inv(w, aux) && w.rules.strict && l in w.links && Fits(w, l, explicit, t, aux)
    requires FreshFreeable(w.next, X)
    ensures Held(Prepare(w, l, t, explicit, kind, form, net).1, X)
  {
    hide Inv, Held, NewQuery, PrepareOn, FreshFreeable;
    BirthKeeps(w, l, t, explicit, kind, aux);
    NewQueryHolds(w, t, FreshQuery(l, explicit, kind), X);
    PrepareOnHolds(NewQuery(w, t, FreshQuery(l, explicit, kind)), w.next, t, form, net, aux, X);
  }

  lemma PrepareOnHolds(w: World, q: Addr, t: Addr, form: Form, net: Net, aux: Option<Addr>, X: Spared)
    requires Held(w, X) && Inv(w, aux) && w.rules.strict && t in w.trans && q in w.queries
    requires w.queries[q].stmt.None? && w.queries[q].owns && w.queries[q].parent.None? && !w.queries[q].isOpen
    requires FreshFreeable(q, X)
    ensures Held(PrepareOn(w, q, t, form, net).1, X)
  {
    hide Inv, Held, FreeQuery, AttachStmt, Describe, FreshFreeable, TreeFreeable;
    FreshTree(w.queries, q, q, X);
    TickKeeps(w, aux);
    FaultHolds(w, X);
    FreeQueryHolds(w, q, net, aux, X);
    FreeQueryHolds(Tick(w), q, net, aux, X);
    if w.trans[t].handle.Some? && net(w.tick) {
      AttachKeeps(Tick(w), q, aux);
      AttachIs(Tick(w), q);
      AttachHolds(Tick(w), q, X);
      DescribeHolds(AttachStmt(Tick(w), q), q, form, net, aux, X);
    }
  }

  lemma DescribeHolds(w: World, q: Addr, form: Form, net: Net, aux: Option<Addr>, X: Spared)
    requires Held(w, X) && Inv(w, aux) && w.rules.strict && Fetched(w, q)
    requires FreshFreeable(q, X)
    ensures Held(Describe(w, q, form, net).1, X)
  {
    hide Inv, FreeQuery, FreshFreeable, TreeFreeable, HeldTrans;
    FreshTree(w.queries, q, q, X);
    TickKeeps(w, aux);
    FreeQueryHolds(Tick(w), q, net, aux, X);
  }

  lemma ReexecHolds(w: World, q: Addr, net: Net, aux: Option<Addr>, X: Spared)
    requires Held(w, X) && Inv(w, aux) && q in w.queries
    ensures Held(CloseForReexec(w, q, net), X)
  {
    hide Inv, Held, Shut, QueryOnLink;
    QueryLive(w, q, aux);
    CursorHolds(w, q, net, aux, X);
  }

  lemma EnsureDefaultHolds(w: World, q: Addr, dflt: seq<Byte>, net: Net, aux: Option<Addr>, X: Spared)
    requires Held(w, X) && Inv(w, aux) && q in w.queries
    ensures Held(EnsureDefault(w, q, dflt, net).1, X)
  {
    hide Inv, Held, Unenroll, DefTrans, Enroll, QueryOnLink;
    QueryLive(w, q, aux);
    FaultHolds(w, X);
    var qq := w.queries[q];
    if qq.trans.Some? && w.trans[qq.trans.value].handle.None? && !qq.explicit && qq.link in w.links {
      UnenrollHolds(w, q, X);
      DefTransHolds(Unenroll(w, q), qq.link, dflt, net, X);
      var (t, w1) := DefTrans(Unenroll(w, q), qq.link, dflt, net);
      if t.Some? { EnrollHolds(w1, q, t.value, X); }
    }
  }

  /** The gate stays shut, or leaves no stale mark, or may leave one. */
  ghost predicate GateShut(w: World, q: Addr, X: Spared) {
    q in w.queries &&
    var qq := w.queries[q];
    qq.kind.Ddl? && qq.explicit && qq.trans.Some? && qq.trans.value in w.trans ==>
      var (t, tr) := (qq.trans.value, w.trans[qq.trans.value]);
      !Started(tr) || !tr.retain || t in X.marks || !(w.rules.autoDdl || tr.count > 0)
  }

  /** The restart of the DDL gate keeps the mark, but the executing query is enrolled. */
  lemma DdlGateHolds(w: World, q: Addr, net: Net, aux: Option<Addr>, X: Spared)
    requires Held(w, X) && Inv(w, aux) && q in w.queries && GateShut(w, q, X)
    ensures Held(DdlGate(w, q, net).1, X)
  {
    hide Inv, Held, TryCommit, FreeHandle, Start, QueryOnLink, SameLayout;
    QueryLive(w, q, aux);
    FaultHolds(w, X);
    if w.queries[q].trans.Some? {
      var t := w.queries[q].trans.value;
      LinkLive(w, t, aux);
      if w.trans[t].handle.Some? {
        EndHolds(w, t, net, X);
        var w1 := TryCommit(w, t, net).1;
        HandleHolds(w1, t, X);
        HandleLeft(w, t, net);
        if w.queries[q].kind.Ddl? && w.queries[q].explicit && (w.rules.autoDdl || w.trans[t].count > 0) {
          StartEnrolledHolds(FreeHandle(w1, t), t, w.trans[t].tpb, net, X);
        }
      }
    }
  }

  lemma HandleLeft(w: World, t: Addr, net: Net)
    requires t in w.trans
    ensures var r := FreeHandle(TryCommit(w, t, net).1, t);
            && t in r.trans && r.trans[t].queries == w.trans[t].queries && r.trans[t].retain == w.trans[t].retain
            && r.trans[t].isDefault == w.trans[t].isDefault
  {}

  lemma StartEnrolledHolds(w: World, t: Addr, tpb: seq<Byte>, net: Net, X: Spared)
    requires Held(w, X) && t in w.trans && w.trans[t].queries != [] &&
             (w.trans[t].isDefault || !w.trans[t].retain || t in X.marks)
    ensures Held(Start(w, t, tpb, net).1, X)
  {
    hide SameLayout, OnlyTrans;
  }

  lemma AddWorkHolds(w: World, t: Addr, kind: Kind, effect: Effect, X: Spared)
    requires Held(w, X)
    ensures Held(AddWork(w, t, kind, effect), X)
  {
    hide Held;
    FaultHolds(w, X);
    if t in w.trans && w.trans[t].handle.Some? {
      HeldOf(w, t, X);
      var (tr, h) := (w.trans[t], w.trans[t].handle.value);
      WorkHolds(w, t, h.pending[..Min(effect.keep, |h.pending|)], w.next, X);
      WorkHolds(w, t, h.pending + [w.next], w.next + 1, X);
    }
  }

  lemma WorkHolds(w: World, t: Addr, pending: seq<Work>, next: nat, X: Spared)
    requires Held(w, X) && t in w.trans && w.trans[t].handle.Some? && (w.wrapped || HeldTrans(w.trans[t], t, X))
    ensures var tr := w.trans[t].(handle := Some(w.trans[t].handle.value.(pending := pending)));
            Held(SetT(w, t, tr).(next := next), X)
  {}

  lemma RunHolds(w: World, q: Addr, effect: Effect, net: Net, X: Spared)
    requires Held(w, X)
    ensures Held(RunStatement(w, q, effect, net).1, X)
  {
    hide Held, AddWork, UseStmt;
    FaultHolds(w, X);
    if q in w.queries && w.queries[q].stmt.Some? && w.queries[q].trans.Some? {
      var qq := w.queries[q];
      StmtHolds(w, q, qq.stmt.value, X);
      var w1 := UseStmt(w, qq.stmt.value);
      FaultHolds(w1, X);
      AddWorkHolds(Tick(w1), qq.trans.value, qq.kind, effect, X);
      var w2 := AddWork(Tick(w1), qq.trans.value, qq.kind, effect);
      FaultHolds(w2, X);
      FaultHolds(Tick(w2), X);
      if q in w2.queries { OnceHolds(Tick(Tick(w2)), q, X); }
    }
  }

  lemma OnceHolds(w: World, q: Addr, X: Spared)
    requires Held(w, X) && q in w.queries
    ensures Held(SetQ(w, q, w.queries[q].(once := true)), X)
  {}

  lemma {:induction false} CloseCursorsHolds(w: World, t: Addr, i: nat, end: nat, net: Net, aux: Option<Addr>,
                                             X: Spared)
    requires Held(w, X) && Inv(w, aux)
    ensures Held(CloseCursors(w, t, i, end, net).1, X)
    decreases end - i
  {
    hide Inv, Held, Shut;
    if i < end {
      if i in w.queries && w.queries[i].isOpen && w.queries[i].trans == Some(t) {
        ShutKeeps(w, i, net, aux);
        CursorHolds(w, i, net, aux, X);
        CloseCursorsHolds(Shut(w, i, net), t, i + 1, end, net, aux, X);
      } else {
        CloseCursorsHolds(w, t, i + 1, end, net, aux, X);
      }
    }
  }

  lemma AutoCommitHolds(w: World, t: Addr, retry: bool, net: Net, aux: Option<Addr>, X: Spared)
    requires Held(w, X) && Inv(w, aux) && t in w.trans && w.trans[t].handle.Some?
    ensures Held(AutoCommit(w, t, retry, net), X)
  {
    hide Inv, Held, TryCommit, FreeHandle, CloseCursors;
    CommitKeeps(w, t, net, aux);
    EndHolds(w, t, net, X);
    var w1 := TryCommit(w, t, net).1;
    HandleHolds(w1, t, X);
    CloseCursorsHolds(w1, t, 0, w1.next, net, aux, X);
    var w2 := CloseCursors(w1, t, 0, w1.next, net).1;
    HandleHolds(w2, t, X);
    EndHolds(w2, t, net, X);
    HandleHolds(TryCommit(w2, t, net).1, t, X);
  }

  lemma DdlAutocommitHolds(w: World, q: Addr, net: Net, aux: Option<Addr>, X: Spared)
    requires Held(w, X) && Inv(w, aux) && q in w.queries
    ensures Held(DdlAutocommit(w, q, net), X)
  {
    hide Inv, Held, AutoCommit, QueryOnLink;
    QueryLive(w, q, aux);
    FaultHolds(w, X);
    if w.queries[q].trans.Some? {
      var t := w.queries[q].trans.value;
      if w.trans[t].handle.Some? { AutoCommitHolds(w, t, true, net, aux, X); }
    }
  }

  lemma MakeResultHolds(w: World, q: Addr, aux: Option<Addr>, X: Spared)
    requires Held(w, X) && Inv(w, aux) && q in w.queries && w.queries[q].trans.Some? && w.queries[q].stmt.Some?
    ensures Held(MakeResult(w, q).1, X)
  {
    hide Inv, Held, NewQuery, CursorOpened, QueryOnLink;
    FaultHolds(w, X);
    FreshAddress(w, aux);
    var r, t := ResultOf(w.queries[q], q), w.queries[q].trans.value;
    ResultFits(w, q, aux);
    NewQueryKeeps(w, t, r, aux);
    NewQueryIs(w, t, r);
    NewQueryHolds(w, t, r, X);
    CursorHolds(NewQuery(w, t, r), w.next, YES, aux, X);
  }

  lemma FinishSelectHolds(w: World, q: Addr, aux: Option<Addr>, X: Spared)
    requires Held(w, X) && Inv(w, aux) && q in w.queries && w.queries[q].trans.Some? && w.queries[q].stmt.Some? &&
             w.queries[q].kind.Select?
    ensures Held(FinishSelect(w, q).1, X)
  {
    hide Inv, Held, MakeResult, CursorOpened, SetMore;
    OpenedKeeps(w, q, aux);
    CursorHolds(w, q, YES, aux, X);
    MoreKeeps(CursorOpened(w, q), q, true, aux);
    MoreHolds(CursorOpened(w, q), q, true, X);
    FlagsKept(w, CursorOpened(w, q), q);
    FlagsKept(CursorOpened(w, q), SetMore(CursorOpened(w, q), q, true), q);
    MakeResultHolds(SetMore(CursorOpened(w, q), q, true), q, aux, X);
  }

  lemma FinishHolds(w: World, q: Addr, net: Net, aux: Option<Addr>, X: Spared)
    requires Held(w, X) && Inv(w, aux) && q in w.queries && w.queries[q].trans.Some? && w.queries[q].stmt.Some?
    ensures Held(Finish(w, q, net).1, X)
  {
    hide Inv, Held, DdlAutocommit, MakeResult, Shut, FinishSelect;
    DdlAutocommitKeeps(w, q, net, aux);
    DdlAutocommitHolds(w, q, net, aux, X);
    var w1 := DdlAutocommit(w, q, net);
    FaultHolds(w1, X);
    TickKeeps(w1, aux);
    CursorHolds(w1, q, net, aux, X);
    CursorHolds(Tick(w1), q, net, aux, X);
    if w.queries[q].kind.Select? { FinishSelectHolds(w1, q, aux, X); }
    else if OneShot(w.queries[q].kind) && w.queries[q].columns > 0 { MakeResultHolds(w1, q, aux, X); }
  }

  lemma ControlHolds(w: World, q: Addr, net: Net, aux: Option<Addr>, X: Spared)
    requires Held(w, X) && Inv(w, aux) && q in w.queries
    ensures Held(Control(w, q, net).1, X)
  {
    hide Inv, Held, Shut, EndBySql, SetTransaction, QueryOnLink, SameLayout, OnlyFlags;
    QueryLive(w, q, aux);
    var qq := w.queries[q];
    FaultHolds(w, X);
    TickKeeps(w, aux);
    CursorHolds(w, q, net, aux, X);
    if qq.kind.SetTrans? { SetTransactionHolds(w, q, qq.link, net, aux, X); }
    else if qq.trans.Some? { EndBySqlHolds(w, q, qq.trans.value, qq.kind.CommitSql?, net, aux, X); }
  }

  lemma SetTransactionHolds(w: World, q: Addr, l: Addr, net: Net, aux: Option<Addr>, X: Spared)
    requires Held(w, X) && Inv(w, aux) && q in w.queries
    ensures Held(SetTransaction(w, q, l, net).1, X)
  {
    hide Inv, Held, Shut, NewTrans;
    FaultHolds(w, X);
    TickKeeps(w, aux);
    CursorHolds(Tick(w), q, net, aux, X);
    if l in w.links { NewTransHolds(Tick(w), l, FreshTrans(l, false, [], true, Some(Handle([], [], false))), X); }
  }

  lemma EndBySqlHolds(w: World, q: Addr, t: Addr, commit: bool, net: Net, aux: Option<Addr>, X: Spared)
    requires Held(w, X) && Inv(w, aux) && q in w.queries && t in w.trans
    ensures Held(EndBySql(w, q, t, commit, net).1, X)
  {
    hide Inv, Held, TryCommit, TryRollback, FreeHandle, Shut, SameLayout, OnlyTrans, OnlyFlags;
    CursorHolds(w, q, net, aux, X);
    if w.trans[t].handle.Some? {
      CommitKeeps(w, t, net, aux);
      RollbackKeeps(w, t, net, aux);
      EndHolds(w, t, net, X);
      var w1 := if commit then TryCommit(w, t, net).1 else TryRollback(w, t, net).1;
      HandleHolds(w1, t, X);
      if q in w1.queries { CursorHolds(w1, q, net, aux, X); }
    }
  }

  /** Starting the default transaction again concerns no explicit one. */
  lemma GateStays(w: World, q: Addr, dflt: seq<Byte>, net: Net, aux: Option<Addr>, X: Spared)
    requires Inv(w, aux) && GateShut(w, q, X) && Kept(w, EnsureDefault(w, q, dflt, net).1, q)
    ensures GateShut(EnsureDefault(w, q, dflt, net).1, q, X)
  {
    hide Inv, Rehome, QueryOnLink;
    QueryLive(w, q, aux);
  }

  lemma ExecPlainHolds(w: World, q: Addr, input: Input, net: Net, aux: Option<Addr>, X: Spared)
    requires Held(w, X) && Inv(w, aux) && AuxLive(w, aux) && q in w.queries
    requires Bind(w, q, input).1 == w &&
             (Bind(w, q, input).0 ==> Settled(w, q, aux) && GateSafe(w, q) && GateShut(w, q, X))
    ensures Held(ExecPlain(w, q, input, net).1, X)
  {
    hide Inv, Held, Bind, EnsureDefault, DdlGate, RunStatement, Finish, Shut, Kept, SameLayout, OnlyFlags;
    CursorHolds(w, q, net, aux, X);
    if !Bind(w, q, input).0 { return; }
    EnsureDefaultKeeps(w, q, input.dflt, net, aux);
    EnsureDefaultHolds(w, q, input.dflt, net, aux, X);
    var w2 := EnsureDefault(w, q, input.dflt, net).1;
    KeptLive(w, w2, q);
    GateStays(w, q, input.dflt, net, aux, X);
    StaysSafe(w, q, input.dflt, net, aux);
    DdlGateKeeps(w2, q, net, aux);
    DdlGateHolds(w2, q, net, aux, X);
    var w3 := DdlGate(w2, q, net).1;
    KeptLive(w2, w3, q);
    CursorHolds(w3, q, net, aux, X);
    RunKeeps(w3, q, input.effect, net, aux);
    KeptLive(w3, RunStatement(w3, q, input.effect, net).1, q);
    RunHolds(w3, q, input.effect, net, X);
    var (ran, w4) := RunStatement(w3, q, input.effect, net);
    CursorHolds(w4, q, net, aux, X);
    if ran { FinishHolds(w4, q, net, aux, X); }
  }

  lemma ExecHolds(w: World, q: Addr, input: Input, net: Net, aux: Option<Addr>, X: Spared)
    requires Held(w, X) && Inv(w, aux) && AuxLive(w, aux) && Executable(w, q, input)
    requires input.args >= w.queries[q].inputs && w.queries[q].kind.Procedure? && Bind(w, q, input).0 ==>
               Settled(w, q, aux)
    requires var w1 := CloseForReexec(w, q, net);
             input.args >= w.queries[q].inputs && Bind(w1, q, input).0 ==> GateShut(w1, q, X)
    ensures Held(Exec(w, q, input, net).1, X)
  {
    hide Inv, Held, CloseForReexec, Control, ExecPlain, Bind;
    ReexecKeeps(w, q, net, aux);
    ReexecExecutable(w, q, input, net, aux);
    ReexecHolds(w, q, net, aux, X);
    var w1 := CloseForReexec(w, q, net);
    ControlHolds(w1, q, net, aux, X);
    if input.args >= w.queries[q].inputs && !IsControl(w.queries[q].kind) {
      BindIs(w1, q, input, aux);
      ExecPlainHolds(w1, q, input, net, aux, X);
    }
  }

  // ------------------------------------------------------------ one-shot calls

  lemma SettleHolds(w: World, q: Addr, reply: Reply, net: Net, aux: Option<Addr>, X: Spared)
    requires Held(w, X) && Inv(w, aux) && w.rules.strict && q in w.queries && w.queries[q].owns &&
             w.queries[q].stmt.Some?
    requires w.queries[q].children == if IsChild(w, reply, q) then [reply.q] else []
    requires FreshFreeable(q, X)
    ensures Held(Settle(w, q, reply, net), X)
  {
    hide Inv, Held, FreeQuery, Transfer, CursorClosed, FreshFreeable, TreeFreeable;
    FreshTree(w.queries, q, q, X);
    FreeQueryHolds(w, q, net, aux, X);
    if IsChild(w, reply, q) {
      var w1 := Transfer(w, q, reply.q);
      TransferKeeps(w, q, reply.q, aux);
      TransferIs(w, q, reply.q);
      TransferHolds(w, q, reply.q, X);
      ClosedKeeps(w1, q, net, aux);
      CursorHolds(w1, q, net, aux, X);
      FreshTree(CursorClosed(w1, q, net).queries, q, q, X);
      FreeQueryHolds(CursorClosed(w1, q, net), q, net, aux, X);
    }
  }

  lemma TransferHolds(w: World, q: Addr, r: Addr, X: Spared)
    requires Held(w, X)
    ensures Held(Transfer(w, q, r), X) && Transfer(w, q, r).rules == w.rules
  {}

  /** Transaction `t` has a mark that a commit in front of DDL would leave behind. */
  predicate GateDue(w: World, t: Addr) {
    t in w.trans && Started(w.trans[t]) && w.trans[t].retain && (w.rules.autoDdl || w.trans[t].count > 0)
  }

  /** A one-shot call with explicit transaction `t` gets to the DDL gate, and that is due. */
  predicate OnceStale(w: World, t: Addr, kind: Kind, form: Form, input: Input) {
    && kind.Ddl? && form.columns <= MAX_COLUMNS && input.args >= form.inputs && (form.inputs == 0 || input.bindOk)
    && GateDue(w, t)
  }

  /** What a successful preparation says of its statement and leaves of its transaction. */
  ghost predicate Drawn(w: World, w1: World, q: Addr, t: Addr, form: Form) {
    && q == w.next && q in w1.queries && form.columns <= MAX_COLUMNS && w1.queries[q].inputs == form.inputs
    && t in w.trans && t in w1.trans && Same(w1.trans[t], w.trans[t].(queries := [q] + w.trans[t].queries)) &&
       w1.rules == w.rules
    && w1.wrapped == w.wrapped
  }

  lemma PreparedDrawn(w: World, l: Addr, t: Addr, explicit: bool, kind: Kind, form: Form, net: Net)
    requires t in w.trans
    ensures var (q, w1) := Prepare(w, l, t, explicit, kind, form, net); q.Some? ==> Drawn(w, w1, q.value, t, form)
  {
    hide FreeTree, PrepareOn;
    var w1 := NewQuery(w, t, FreshQuery(l, explicit, kind));
    BornListed(w, t, FreshQuery(l, explicit, kind));
    OnDrawn(w1, w.next, t, form, net);
  }

  lemma BornListed(w: World, t: Addr, qq: Query)
    requires t in w.trans && qq.parent.None?
    ensures var w1 := NewQuery(w, t, qq);
            w1.rules == w.rules && w1.wrapped == w.wrapped && t in w1.trans &&
            Same(w1.trans[t], w.trans[t].(queries := [w.next] + w.trans[t].queries))
  {}

  lemma OnDrawn(w: World, q: Addr, t: Addr, form: Form, net: Net)
    requires t in w.trans
    ensures var (r, w1) := PrepareOn(w, q, t, form, net);
            r.Some? ==>
              && r.value == q && q in w1.queries && form.columns <= MAX_COLUMNS && w1.queries[q].inputs == form.inputs
              && Same(w1.trans, w.trans) && w1.rules == w.rules && w1.wrapped == w.wrapped
  {
    hide FreeTree;
  }

  lemma RunOnceHolds(w: World, l: Addr, t: Addr, explicit: bool, kind: Kind, form: Form, input: Input, net: Net,
                     aux: Option<Addr>, X: Spared)
    requires Held(w, X) && Inv(w, aux) && AuxLive(w, aux) && w.rules.strict && l in w.links &&
             Fits(w, l, explicit, t, aux)
    requires FreshFreeable(w.next, X) && (explicit && OnceStale(w, t, kind, form, input) ==> t in X.marks)
    ensures Held(RunOnce(w, l, t, explicit, kind, form, input, net), X)
  {
    hide Inv, Held, Prepare, Exec, FreeQuery, Settle, QueryAutocommit, SameLayout, FreshFreeable, CloseForReexec,
         GateShut, Bind, Drawn, OnceStale;
    PrepareHolds(w, l, t, explicit, kind, form, net, aux, X);
    PrepareKeeps(w, l, t, explicit, kind, form, net, aux);
    PreparedDrawn(w, l, t, explicit, kind, form, net);
    var (q, w1) := Prepare(w, l, t, explicit, kind, form, net);
    if q.Some? {
      WholeExecKeeps(w1, q.value, input, net, aux);
      OnceGateShut(w, w1, q.value, l, t, explicit, kind, form, input, net, X);
      ExecHolds(w1, q.value, input, net, aux, X);
      ExecutedHolds(w1, q.value, l, t, explicit, input, net, aux, X);
    }
  }

  /** The gate stands before the new statement as it did before the call. */
  lemma OnceGateShut(w: World, w1: World, q: Addr, l: Addr, t: Addr, explicit: bool, kind: Kind, form: Form,
                     input: Input, net: Net, X: Spared)
    requires Drawn(w, w1, q, t, form) && Prepared(w1, q, l, t, explicit, kind)
    requires explicit && OnceStale(w, t, kind, form, input) ==> t in X.marks
    requires t in w.trans && (explicit ==> !w.trans[t].isDefault)
    ensures q == w.next
    ensures CloseForReexec(w1, q, net) == w1
    ensures input.args >= w1.queries[q].inputs && Bind(w1, q, input).0 ==> GateShut(w1, q, X)
  {
    hide Shut, UseStmt;
  }

  /** The rest of a one-shot call. */
  lemma ExecutedHolds(w: World, q: Addr, l: Addr, t: Addr, explicit: bool, input: Input, net: Net, aux: Option<Addr>,
                      X: Spared)
    requires Held(Exec(w, q, input, net).1, X) && Inv(w, aux) && w.rules.strict && q in w.queries && l in w.links &&
             t in w.trans
    requires w.queries[q].owns && w.queries[q].stmt.Some? && w.queries[q].children == []
    requires var (reply, w2) := Exec(w, q, input, net); Inv(w2, aux) && Executed(w, reply, w2, q)
    requires FreshFreeable(q, X)
    ensures var (reply, w2) := Exec(w, q, input, net);
            Held(if reply.Failure? then FreeQuery(w2, q, net)
            else Settle(QueryAutocommit(w2, q, l, t, explicit, reply, net), q, reply, net), X)
  {
    hide Inv, Held, Exec, FreeQuery, Settle, QueryAutocommit, SameLayout, FreshFreeable, TreeFreeable;
    var (reply, w2) := Exec(w, q, input, net);
    FreshTree(w2.queries, q, q, X);
    if reply.Failure? { FreeQueryHolds(w2, q, net, aux, X); }
    else {
      QueryAutocommitKeeps(w2, q, l, t, explicit, reply, net, aux);
      QueryAutocommitHolds(w2, q, l, t, explicit, reply, net, aux, X);
      SettleHolds(QueryAutocommit(w2, q, l, t, explicit, reply, net), q, reply, net, aux, X);
    }
  }

  lemma QueryAutocommitHolds(w: World, q: Addr, l: Addr, t: Addr, explicit: bool, reply: Reply, net: Net,
                             aux: Option<Addr>, X: Spared)
    requires Held(w, X) && Inv(w, aux) && q in w.queries && t in w.trans
    ensures Held(QueryAutocommit(w, q, l, t, explicit, reply, net), X)
  {
    hide Inv, Held, AutoCommit;
    FaultHolds(w, X);
    if w.trans[t].handle.Some? { AutoCommitHolds(w, t, w.queries[q].kind.Ddl?, net, aux, X); }
  }

  lemma ExecuteAutoHolds(w: World, l: Addr, kind: Kind, form: Form, input: Input, net: Net, X: Spared)
    requires Held(w, X) && Inv(w, None) && w.rules.strict && l in w.links
    requires FreshFreeable(w.next, X)
    ensures Held(ExecuteAuto(w, l, kind, form, input, net), X)
  {
    hide Inv, Held, FreshFreeable, Prepare, Exec, FreeQuery, DetachAndFree, EndAndDrop;
    TickKeeps(w, None);
    FaultHolds(w, X);
    var t := w.next;
    var tr := FreshTrans(l, false, [], true, Some(Handle([], [], false)));
    AuxKeeps(Tick(w), l, t, tr);
    AuxHolds(w, tr, X);
    var w0 := Tick(w).(trans := w.trans[t := tr], next := t + 1);
    PrepareKeeps(w0, l, t, false, kind, form, net, Some(t));
    LaterFreeable(t, t + 1, X);
    PreparedDrawn(w0, l, t, false, kind, form, net);
    PrepareHolds(w0, l, t, false, kind, form, net, Some(t), X);
    var (q, w1) := Prepare(w0, l, t, false, kind, form, net);
    EndAndDropHolds(w1, t, true, false, net, X);
    DetachHolds(EndAndDrop(w1, t, true, false, net), t, X);
    if q.Some? { AutoRunHolds(w1, q.value, t, input, net, X); }
  }

  lemma LaterFreeable(q: Addr, r: Addr, X: Spared)
    requires FreshFreeable(q, X) && q <= r
    ensures FreshFreeable(r, X)
  {}

  /** The second half of fbird_execute_auto, on its own transaction `t`. */
  lemma AutoRunHolds(w: World, q: Addr, t: Addr, input: Input, net: Net, X: Spared)
    requires Held(w, X) && Inv(w, Some(t)) && w.rules.strict && t in w.trans
    requires Executable(w, q, input) && w.queries[q].stmt.Some? && !w.queries[q].isOpen && !w.queries[q].explicit
    requires FreshFreeable(q, X)
    ensures var (reply, w2) := Exec(w, q, input, net);
            Held(DetachAndFree(EndAndDrop(FreeQuery(w2, q, net), t, true, reply.Done?, net), t), X)
  {
    hide Inv, Held, Exec, FreeQuery, DetachAndFree, EndAndDrop, FreshFreeable, TreeFreeable, Shut;
    WholeExecKeeps(w, q, input, net, Some(t));
    ExecHolds(w, q, input, net, Some(t), X);
    var (reply, w2) := Exec(w, q, input, net);
    FreshTree(w2.queries, q, q, X);
    FreeQueryHolds(w2, q, net, Some(t), X);
    var w3 := FreeQuery(w2, q, net);
    EndAndDropHolds(w3, t, true, reply.Done?, net, X);
    DetachHolds(EndAndDrop(w3, t, true, reply.Done?, net), t, X);
  }

  lemma AuxHolds(w: World, tr: Trans, X: Spared)
    requires Held(w, X) && !Retains(tr)
    ensures Held(Tick(w).(trans := w.trans[w.next := tr], next := w.next + 1), X)
  {}

  lemma ExhaustHolds(w: World, q: Addr, net: Net, aux: Option<Addr>, X: Spared)
    requires Held(w, X) && Inv(w, aux) && q in w.queries
    ensures Held(Exhaust(w, q, net), X)
  {
    hide Inv, Held, CursorClosed, SetMore;
    MoreKeeps(w, q, false, aux);
    MoreHolds(w, q, false, X);
    CursorHolds(SetMore(w, q, false), q, net, aux, X);
  }

  lemma FetchHolds(w: World, q: Addr, contents: seq<Column>, net: Net, aux: Option<Addr>, X: Spared)
    requires Held(w, X) && Inv(w, aux) && q in w.queries
    ensures Held(Fetch(w, q, contents, net), X)
  {
    hide Inv, Held, Exhaust, ReadContents, QueryOnLink;
    QueryLive(w, q, aux);
    FaultHolds(w, X);
    FaultHolds(Tick(w), X);
    TickKeeps(w, aux);
    TickKeeps(Tick(w), aux);
    ExhaustHolds(w, q, net, aux, X);
    ExhaustHolds(Tick(Tick(w)), q, net, aux, X);
    var w1 := FetchCursor(w, q, net).1;
    LikeHolds(w1, ReadContents(w1, q, contents, net), X);
  }

  // ------------------------------------------------------------ links, tables, batches

  lemma CloseNodeHolds(w: World, l: Addr, alive: bool, net: Net, X: Spared)
    requires Held(w, X)
    ensures Held(CloseNode(w, l, alive, net), X)
  {
    hide Held, EndAndDrop, DetachAndFree;
    FaultHolds(w, X);
    PopHolds(w, l, X);
    if l in w.links && w.links[l].trs != [] && w.links[l].trs[0].Some? && w.links[l].trs[0].value in w.trans {
      var t := w.links[l].trs[0].value;
      EndAndDropHolds(w, t, alive, w.trans[t].isDefault, net, X);
      var w1 := EndAndDrop(w, t, alive, w.trans[t].isDefault, net);
      FaultHolds(w1, X);
      PopHolds(w1, l, X);
      DetachHolds(PopNode(w1, l), t, X);
      if t in w1.trans {
        RelinkHolds(PopNode(w1, l), w1, t, if w1.trans[t].link == Some(l) then None else w1.trans[t].link, X);
      }
    }
  }

  lemma RelinkHolds(w: World, w1: World, t: Addr, link: Option<Addr>, X: Spared)
    requires Held(w, X) && t in w1.trans && w.trans == w1.trans
    ensures Held(SetT(w, t, w1.trans[t].(link := link)), X)
  {}

  lemma PopHolds(w: World, l: Addr, X: Spared)
    requires Held(w, X)
    ensures Held(PopNode(w, l), X) && (PopNode(w, l).trans == w.trans)
  {}

  lemma {:induction false} CloseNodesHolds(w: World, l: Addr, n: nat, alive: bool, net: Net, X: Spared)
    requires Held(w, X)
    ensures Held(CloseNodes(w, l, n, alive, net), X)
    decreases n
  {
    hide Held, CloseNode;
    if n > 0 {
      CloseNodeHolds(w, l, alive, net, X);
      CloseNodesHolds(CloseNode(w, l, alive, net), l, n - 1, alive, net, X);
    }
  }

  lemma CloseLinkHolds(w: World, l: Addr, net: Net, X: Spared)
    requires Held(w, X) && l in w.links
    ensures Held(CloseLink(w, l, net), X)
  {
    hide CloseNodes;
    CloseNodesHolds(Tick(w), l, |w.links[l].trs|, net(w.tick), net, X);
  }

  lemma DropTableHolds(w: World, t: Addr, net: Net, X: Spared)
    requires Held(w, X)
    ensures Held(DropTable(w, t, net), X)
  {
    hide Held, AddWork, TryCommit, FreeHandle, DropDefault, UnlinkTrans;
    FaultHolds(w, X);
    AddWorkHolds(Tick(w), t, Ddl, NOTHING, X);
    var w1 := AddWork(Tick(w), t, Ddl, NOTHING);
    EndHolds(w1, t, net, X);
    var w2 := TryCommit(w1, t, net).1;
    HandleHolds(w2, t, X);
    var w3 := FreeHandle(w2, t);
    UnlinkHolds(w3, t, X);
    DropDefaultHolds(w3, t, X);
  }

  lemma DropDefaultHolds(w: World, t: Addr, X: Spared)
    requires Held(w, X)
    ensures Held(DropDefault(w, t), X)
  {
    hide Held, DetachAndFree, Blank;
    FaultHolds(w, X);
    DetachHolds(w, t, X);
    if t in w.trans && w.trans[t].link.Some? && w.trans[t].link.value in w.links {
      var l := w.trans[t].link.value;
      var w1 := w.(links := w.links[l := w.links[l].(trs := Blank(w.links[l].trs, t))]);
      LikeHolds(w, w1, X);
      DetachHolds(w1, t, X);
    }
  }

  lemma BatchHolds(w: World, b: Addr, net: Net, X: Spared)
    requires Held(w, X)
    ensures Held(BatchExecute(w, b, net), X) && Held(BatchCancel(w, b, net), X)
  {
    hide Held, AddWork;
    FaultHolds(w, X);
    if b in w.batches {
      var w1 := Tick(w).(batches := w.batches[b := w.batches[b].(wrapper := false)]);
      LikeHolds(w, w1, X);
      if w.batches[b].trans.Some? { AddWorkHolds(w1, w.batches[b].trans.value, Dml, NOTHING, X); }
    }
  }

  lemma BatchCreateHolds(w: World, q: Addr, explicit: Option<Addr>, net: Net, X: Spared)
    requires Held(w, X)
    ensures Held(BatchCreate(w, q, explicit, net), X)
  {
    hide Held, EnlistBatch, UseStmt;
    FaultHolds(w, X);
    if q in w.queries && w.queries[q].stmt.Some? {
      StmtHolds(w, q, w.queries[q].stmt.value, X);
      var w1 := UseStmt(w, w.queries[q].stmt.value);
      FaultHolds(w1, X);
      var target := if explicit.Some? then explicit else w.queries[q].trans;
      if target.Some? { EnlistHolds(Tick(w1), q, target.value, X); }
    }
  }

  lemma EnlistHolds(w: World, q: Addr, t: Addr, X: Spared)
    requires Held(w, X)
    ensures Held(EnlistBatch(w, q, t), X)
  {
    hide Held;
    LikeHolds(w, EnlistBatch(w, q, t), X);
  }

  // ------------------------------------------------------------ steps

  /** Executing a statement gets to the DDL gate, and that is due once the statement's own cursor is closed. */
  predicate StaleExec(w: World, q: Addr, input: Input) {
    q in w.queries &&
    var qq := w.queries[q];
    && input.args >= qq.inputs && Bind(w, q, input).0 && qq.kind.Ddl? && qq.explicit && qq.trans.Some? &&
       qq.trans.value in w.trans
    && var tr := w.trans[qq.trans.value];
       Started(tr) && tr.retain && (w.rules.autoDdl || tr.count > if qq.isOpen then 1 else 0)
  }

  /** The calls that let the DDL gate commit and restart a marked transaction. */
  predicate Stale(w: World, op: Op) {
    match op
    case Execute(q, input) => StaleExec(w, q, input)
    case Once(on, kind, form, input) => !on.OnLink? && OnceStale(w, on.t, kind, form, input)
    case _ => false
  }

  lemma ExecGateShut(w: World, q: Addr, input: Input, net: Net, X: Spared)
    requires Inv(w, None) && q in w.queries && (StaleExec(w, q, input) ==> forall t: Addr :: t in X.marks)
    ensures var w1 := CloseForReexec(w, q, net);
            input.args >= w1.queries[q].inputs && Bind(w1, q, input).0 ==> GateShut(w1, q, X)
  {
    hide Inv, CloseForReexec, SameLayout, OnlyFlags, QueryOnLink;
    QueryLive(w, q, None);
    if w.queries[q].kind.Procedure? || !w.queries[q].isOpen {
      assert CloseForReexec(w, q, net) == w by { StaysOpen(w, q, net); }
    }
    else { ReexecIs(w, q, net); }
  }

  lemma StaysOpen(w: World, q: Addr, net: Net)
    requires q in w.queries && (w.queries[q].kind.Procedure? || !w.queries[q].isOpen)
    ensures CloseForReexec(w, q, net) == w
  {
    hide CursorClosed;
  }

  lemma ReexecIs(w: World, q: Addr, net: Net)
    requires Inv(w, None) && q in w.queries && !w.queries[q].kind.Procedure?
    ensures CloseForReexec(w, q, net) == if w.queries[q].isOpen then SetMore(Closed(w, q), q, false) else w
  {
    hide Inv, CursorClosed, Closed, SameLayout, OnlyFlags, QueryOnLink;
    QueryLive(w, q, None);
    CloseNeverReleases(w, q, net, None);
  }

  lemma ExecuteHolds(w: World, q: Addr, input: Input, net: Net, X: Spared)
    requires Held(w, X) && Inv(w, None) && q in w.queries && Careful(w, Execute(q, input)) &&
             FetchedFirst(w, Execute(q, input))
    requires Stale(w, Execute(q, input)) ==> forall t: Addr :: t in X.marks
    ensures Held(Exec(w, q, input, net).1, X)
  {
    hide Inv, Held, Exec, CloseForReexec, Bind, GateShut, StaleExec;
    ReexecKeeps(w, q, net, None);
    ExecGateShut(w, q, input, net, X);
    ExecHolds(w, q, input, net, None, X);
  }

  lemma TargetsHold(w: World, on: Target, kind: Kind, form: Form, input: Input, net: Net, X: Spared)
    requires Held(w, X) && Inv(w, None) && w.rules.strict && FreshFreeable(w.next, X)
    requires Live(w, on)
    ensures Held(PrepareTarget(w, on, kind, form, input.dflt, net), X)
    ensures (Stale(w, Once(on, kind, form, input)) ==> forall t: Addr :: t in X.marks) ==>
              Held(RunTarget(w, on, kind, form, input, net), X)
    ensures Held(DropTarget(w, on, input.dflt, net), X)
  {
    hide Inv, Held, DefTrans, RunOnce, Prepare, DropTable, FreshFreeable, OnceStale;
    FaultHolds(w, X);
    ResolveKeeps(w, on, input.dflt, net);
    if on.OnLink? {
      DefTransHolds(w, on.l, input.dflt, net, X);
      DefTransKeeps(w, on.l, input.dflt, net, None);
      DefTransNext(w, on.l, input.dflt, net);
    }
    var (r, w1) := Resolve(w, on, input.dflt, net);
    LaterFreeable(w.next, w1.next, X);
    if r.Some? {
      var (l, t) := r.value;
      PrepareHolds(w1, l, t, !on.OnLink?, kind, form, net, None, X);
      DropTableHolds(w1, t, net, X);
      if Stale(w, Once(on, kind, form, input)) ==> forall t: Addr :: t in X.marks {
        RunOnceHolds(w1, l, t, !on.OnLink?, kind, form, input, net, None, X);
      }
    }
  }

  lemma DefTransNext(w: World, l: Addr, dflt: seq<Byte>, net: Net)
    ensures DefTrans(w, l, dflt, net).1.next >= w.next
  {
    hide StartDefault;
  }

  lemma StartOnHolds(w: World, l: Addr, started: seq<Byte>, stored: seq<Byte>, net: Net, X: Spared)
    requires Held(w, X) && l in w.links
    ensures Held(StartOn(w, l, started, stored, net), X)
  {
    FaultHolds(w, X);
    NewTransHolds(Tick(w), l, FreshTrans(l, false, stored, started == stored, Some(Handle(started, [], false))), X);
  }

  /** The exceptions are large enough for a call. */
  ghost predicate Covered(w: World, op: Op, net: Net, X: Spared) {
    && (Stale(w, op) ==> forall t: Addr :: t in X.marks)
    && match op
       case Free(q) => q in w.queries ==> TreeFreeable(w.queries, q, X)
       case FreeBatch(_, _) => false
       case End(t, mode) => t in X.locks || (!Unmarked(w, t, mode) && forall x: Addr :: x in X.kept)
       case PrepareStmt(_, _, _, _) => FreshFreeable(w.next, X)
       case Once(_, _, _, _) => FreshFreeable(w.next, X)
       case Auto(_, _, _, _) => FreshFreeable(w.next, X)
       case Drop(_, _) => FreshFreeable(w.next, X)
       case _ => true
  }

  lemma FreeingHolds(w: World, op: Op, net: Net, X: Spared)
    requires Held(w, X) && Inv(w, None) && w.rules.strict && Accepted(w, op) && FetchedFirst(w, op) &&
             Covered(w, op, net, X)
    requires op.Free? || op.PrepareStmt? || op.Once? || op.Auto? || op.Drop?
    ensures Held(Perform(w, op, net), X)
  {
    hide Inv, Held, PrepareTarget, RunTarget, ExecuteAuto, FreeQuery, DropTarget, FreshFreeable, TreeFreeable, Stale;
    match op {
      case PrepareStmt(on, kind, form, dflt) => TargetsHold(w, on, kind, form, Input(0, false, true, dflt, NOTHING),
                                                            net, X);
      case Once(on, kind, form, input) => TargetsHold(w, on, kind, form, input, net, X);
      case Auto(l, kind, form, input) => ExecuteAutoHolds(w, l, kind, form, input, net, X);
      case Free(q) => FreeQueryHolds(w, q, net, None, X);
      case Drop(on, dflt) => TargetsHold(w, on, Ddl, Form(0, 0), Input(0, false, true, dflt, NOTHING), net, X);
    }
  }

  lemma EndingHolds(w: World, op: Op, net: Net, X: Spared)
    requires Held(w, X) && Inv(w, None) && w.rules.strict && Accepted(w, op) && Covered(w, op, net, X)
    requires op.End? || op.EndObject? || op.Release? || op.DestroyTrans? || op.Close?
    ensures Held(Perform(w, op, net), X)
  {
    hide Inv, Held, TransEnd, EndAndDrop, CommitRestart, FreeTrans, CloseLink;
    match op {
      case End(t, mode) => TransEndHolds(w, t, mode, net, None, X);
      case EndObject(t, commit) => EndAndDropHolds(w, t, true, commit, net, X);
      case Release(t) => if w.trans[t].handle.Some? { CommitRestartHolds(w, t, net, None, X); }
      case DestroyTrans(t) => FreeTransHolds(w, t, net, X);
      case Close(l) => CloseLinkHolds(w, l, net, X);
    }
  }

  lemma StartingHolds(w: World, op: Op, net: Net, X: Spared)
    requires Held(w, X) && Inv(w, None) && Accepted(w, op)
    requires op.Connect? || op.StartTrans? || op.StartLegacy? || op.TouchDefault?
    ensures Held(Perform(w, op, net), X)
  {
    hide Inv, Held, StartOn, DefTrans, LegacyTrans.Asked;
    match op {
      case Connect(persistent) => LikeHolds(w,
          w.(links := w.links[w.next := Link(persistent, [])], next := w.next + 1), X);
      case StartTrans(l, tpb) => StartOnHolds(w, l, tpb, tpb, net, X);
      case StartLegacy(args, fallback, build, junk) =>
        var r := LegacyTrans.Asked(args, fallback, build, junk);
        if r.Some? { StartOnHolds(w, r.value.l, r.value.started, r.value.stored, net, X); }
      case TouchDefault(l, dflt) => DefTransHolds(w, l, dflt, net, X);
    }
  }

  lemma UsingHolds(w: World, op: Op, net: Net, X: Spared)
    requires Held(w, X) && Inv(w, None) && Accepted(w, op) && Careful(w, op) && FetchedFirst(w, op) &&
             Covered(w, op, net, X)
    requires op.Execute? || op.FetchRow? || op.NewBatch? || op.ExecuteBatch? || op.CancelBatch?
    ensures Held(Perform(w, op, net), X)
  {
    hide Inv, Held, Exec, Fetch, BatchCreate, BatchExecute, BatchCancel, Stale, Executable, Readable;
    match op {
      case Execute(q, input) => ExecuteHolds(w, q, input, net, X);
      case FetchRow(q, contents) => FetchHolds(w, q, contents, net, None, X);
      case NewBatch(q, explicit) => BatchCreateHolds(w, q, explicit, net, X);
      case ExecuteBatch(b) => BatchHolds(w, b, net, X);
      case CancelBatch(b) => BatchHolds(w, b, net, X);
    }
  }

  /** Every call but the freeing of a batch, with exceptions that are large enough for it. */
  lemma PerformHolds(w: World, op: Op, net: Net, X: Spared)
    requires Held(w, X) && Inv(w, None) && w.rules.strict && Accepted(w, op) && Careful(w, op) && FetchedFirst(w, op) &&
             Covered(w, op, net, X)
    ensures Held(Perform(w, op, net), X)
  {
    hide Inv, Held, Perform, Careful, FetchedFirst, Covered, Accepted;
    if op.FreeBatch? { NotBatch(w, op, net, X); }
    else if op.Free? || op.PrepareStmt? || op.Once? || op.Auto? || op.Drop? { FreeingHolds(w, op, net, X); }
    else if op.Connect? || op.StartTrans? || op.StartLegacy? || op.TouchDefault? { StartingHolds(w, op, net, X); }
    else if op.Execute? || op.FetchRow? || op.NewBatch? || op.ExecuteBatch? || op.CancelBatch? {
      UsingHolds(w, op, net, X);
    }
    else { EndingHolds(w, op, net, X); }
  }

  lemma NotBatch(w: World, op: Op, net: Net, X: Spared)
    requires Covered(w, op, net, X)
    ensures !op.FreeBatch?
  {}
}
