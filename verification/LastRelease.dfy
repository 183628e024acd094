/** The release that is due when the last query of an explicit transaction with locks goes: the server is asked
    once, with the next call, and its answer decides whether the locks stay with nobody left to release them. */
module LastRelease {
  import opened State
  import opened Transactions
  import opened Queries
  import opened Invariant
  import opened TransactionsKeep
  import opened StructureKeeps
  import opened QueriesKeep
  import opened ExecKeeps
  import opened Outcomes
  import opened Cascade
  import opened RetentionHolds

  // ------------------------------------------------------------ the two parts

  /** A mark always has somebody whose going will set off the release. */
  ghost predicate Enlisted(w: World) {
    w.wrapped || forall t :: t in w.trans && Started(w.trans[t]) && w.trans[t].retain ==> Enrolls(w.trans[t])
  }

  /** Locks always come with the mark. */
  ghost predicate Labelled(w: World) {
    w.wrapped || forall t :: t in w.trans && Started(w.trans[t]) && w.trans[t].handle.value.locks ==> w.trans[t].retain
  }

  lemma ReleasedParts(w: World)
    ensures Released(w) <==> Enlisted(w) && Labelled(w)
  {}

  /** The exceptions under which `Held` is `Enlisted`. */
  ghost const LOOSE: Spared := Spared(ALL, ALL, iset{})

  lemma EnlistedIs(w: World)
    ensures Enlisted(w) <==> Held(w, LOOSE)
  {
    if !w.wrapped {
      forall t | t in w.trans
        ensures HeldTrans(w.trans[t], t, LOOSE) <==> (Started(w.trans[t]) && w.trans[t].retain ==> Enrolls(w.trans[t]))
      { assert t in ALL; }
    }
  }

  lemma LooseTree(Q: map<Addr, Query>, q: Addr)
    ensures TreeFreeable(Q, q, LOOSE)
  {}

  /** Fewer exceptions to what is asked of locks. */
  lemma HeldReleased(w: World, X: Spared)
    requires Held(w, X) && X.locks == iset{}
    ensures Released(w)
  {
    if !w.wrapped {
      forall t | t in w.trans && Retains(w.trans[t]) ensures w.trans[t].retain && Enrolls(w.trans[t]) {
        assert HeldTrans(w.trans[t], t, X);
      }
    }
  }

  // ------------------------------------------------------------ families

  /** A statement of an explicit transaction and everything under it are on that transaction. */
  lemma {:induction false} UnderFamily(Q: map<Addr, Query>, x: Addr, q: Addr)
    requires Families(Q) && q in Q && x in Q && Under(Q, x, q)
    ensures Q[x].explicit == Q[q].explicit && (Q[x].explicit ==> Q[x].trans == Q[q].trans)
    decreases x
  {
    if x != q {
      assert InFamily(Q, Q[x]);
      UnderAbove(Q, Q[x].parent.value, q);
      UnderFamily(Q, Q[x].parent.value, q);
    }
  }

  lemma FamiliesOf(w: World, aux: Option<Addr>)
    requires Inv(w, aux)
    ensures Families(w.queries) && Tree(w.queries)
  {}

  lemma ChildFamily(w: World, q: Addr, c: Addr, t: Addr)
    requires Inv(w, None) && q in w.queries && c in w.queries && w.queries[c].parent == Some(q)
    requires w.queries[q].explicit && w.queries[q].trans == Some(t)
    ensures w.queries[c].explicit && w.queries[c].trans == Some(t)
  {
    hide Tree;
    assert InFamily(w.queries, w.queries[c]);
  }

  /** A query of an explicit transaction names it. */
  lemma ListedExplicit(w: World, x: Addr, t: Addr)
    requires Inv(w, None) && t in w.trans && !w.trans[t].isDefault && x in w.trans[t].queries
    ensures x in w.queries && w.queries[x].trans == Some(t) && w.queries[x].explicit
  {
    assert RegistryOk(w.trans[t], t, w.queries) && QueryEnrolled(w.trans, w.queries[x], x) &&
           QueryOnLink(w.trans, w.queries[x], None);
  }

  // ------------------------------------------------------------ the call that decides

  /** Explicit `t`, which had the handle `h` at the k-th call to the server: as long as queries are enrolled nothing
      has been asked; then the k-th answer has decided. */
  ghost predicate Decided(w: World, t: Addr, k: nat, h: Handle, net: Net) {
    t in w.trans &&
    var tr := w.trans[t];
    && !tr.isDefault && tr.batches == []
    && if tr.queries != [] then w.tick == k && tr.handle == Some(h) && tr.retain
       else !tr.retain && if net(k) then tr.handle.Some? ==> !tr.handle.value.locks else tr.handle == Some(h)
  }

  /** The k-th call is still to come. */
  ghost predicate Due(w: World, t: Addr, k: nat, h: Handle) {
    && t in w.trans && !w.trans[t].isDefault && w.trans[t].batches == []
    && w.tick == k && w.trans[t].handle == Some(h) && w.trans[t].retain
  }

  /** The release after a query has left. */
  lemma ReleaseDecides(w: World, t: Addr, k: nat, h: Handle, net: Net)
    requires Inv(w, None) && w.rules.strict && !w.wrapped && Due(w, t, k, h)
    ensures Decided(ReleaseIfIdle(w, t, net), t, k, h, net)
  {
    CountsNothing(w, t, None);
    hide Inv, CommitRestart, SameLayout, OnlyTrans;
    if Idle(w.trans[t]) {
      IsWorking(w, t, None);
      CommitRestartIs(SetT(w, t, w.trans[t].(retain := false)), t, net);
    }
  }

  /** Closing a cursor leaves the decision open. */
  lemma ShutDue(w: World, q: Addr, t: Addr, k: nat, h: Handle, net: Net)
    requires Inv(w, None) && q in w.queries && Due(w, t, k, h)
    ensures var r := Shut(w, q, net);
            Due(r, t, k, h) && r.wrapped == w.wrapped && r.rules == w.rules && r.trans[t].queries == w.trans[t].queries
  {
    hide Inv, SameLayout, OnlyFlags, CursorClosed;
    CloseNeverReleases(w, q, net, None);
  }

  lemma CloseDue(w: World, q: Addr, mirror: bool, t: Addr, k: nat, h: Handle, net: Net)
    requires Inv(w, None) && q in w.queries && Due(w, t, k, h)
    ensures var r := CloseForFree(w, q, mirror, net);
            Due(r, t, k, h) && r.wrapped == w.wrapped && r.rules == w.rules && r.trans[t].queries == w.trans[t].queries
  {
    hide Inv, Shut, Due, QueryOnLink;
    QueryLive(w, q, None);
    DueIn(w, t, k, h);
    if w.queries[q].stmt.Some? && w.queries[q].isOpen {
      ShutDue(w, q, t, k, h, net);
      ShutKeeps(w, q, net, None);
      var w1 := Shut(w, q, net);
      FlagsKept(w, w1, q);
      DueIn(w1, t, k, h);
      if mirror && w.queries[q].parent.Some? {
        ShutDue(w1, w.queries[q].parent.value, t, k, h, net);
        DueIn(Shut(w1, w.queries[q].parent.value, net), t, k, h);
      }
    }
  }

  lemma DueIn(w: World, t: Addr, k: nat, h: Handle)
    requires Due(w, t, k, h)
    ensures t in w.trans
  {}

  /** Everything that freeing a query does before it leaves its registry. */
  lemma ClearedDue(w: World, q: Addr, mirror: bool, t: Addr, k: nat, h: Handle, net: Net)
    requires Inv(w, None) && q in w.queries && w.queries[q].explicit && Due(w, t, k, h)
    ensures var r := Cleared(w, q, mirror, net); Due(r, t, k, h) && r.wrapped == w.wrapped
  {
    hide Inv, CloseForFree, SameLayout;
    CloseDue(w, q, mirror, t, k, h, net);
    CloseForFreeKeeps(w, q, mirror, net, None);
  }

  lemma RemovedDue(w: World, q: Addr, t: Addr, k: nat, h: Handle)
    requires Due(w, t, k, h) && q in w.queries && w.queries[q].reg == Some(t) &&
             (w.queries[q].parent.Some? ==> w.queries[q].parent.value in w.queries)
    ensures var r := RemoveQuery(w, q); Due(r, t, k, h) && r.wrapped == w.wrapped && r.rules == w.rules
  {
    hide Pruned, Without;
    RemoveQueryIs(w, q);
  }

  lemma LeafDecides(w: World, q: Addr, mirror: bool, t: Addr, k: nat, h: Handle, net: Net)
    requires Inv(w, None) && w.rules.strict && !w.wrapped && Fetched(w, q) && w.queries[q].children == []
    requires w.queries[q].explicit && w.queries[q].trans == Some(t) && Decided(w, t, k, h, net)
    ensures Decided(DestroyLeaf(w, q, mirror, net), t, k, h, net)
  {
    hide Inv, CloseForFree, CommitOnFree, ReleaseIfIdle, RemoveQuery, DropStmt, QueryOnLink, Decided, Due;
    QueryLive(w, q, None);
    StillDue(w, q, t, k, h, net);
    ClearedKeeps(w, q, mirror, net, None);
    ClearedDue(w, q, mirror, t, k, h, net);
    var w2 := Cleared(w, q, mirror, net);
    QueryLive(w2, q, None);
    RemoveQueryKeeps(w2, q, None);
    RemovedDue(w2, q, t, k, h);
    ReleaseDecides(RemoveQuery(w2, q), t, k, h, net);
  }

  lemma StillDue(w: World, q: Addr, t: Addr, k: nat, h: Handle, net: Net)
    requires Decided(w, t, k, h, net) && q in w.trans[t].queries
    ensures Due(w, t, k, h)
  {}

  lemma {:induction false} TreeDecides(w: World, q: Addr, end: nat, t: Addr, k: nat, h: Handle, net: Net)
    requires Inv(w, None) && w.rules.strict && !w.wrapped && Fetched(w, q) && forall x :: x in w.queries ==> x < end
    requires w.queries[q].explicit && w.queries[q].trans == Some(t) && Decided(w, t, k, h, net)
    ensures Decided(FreeTree(w, q, false, end, net), t, k, h, net)
    decreases end - q, 1, 0
  {
    hide Inv, DestroyLeaf, Decided;
    FreeAllKeeps(w, q, end, net, None);
    AllQuiet(w, q, w.queries[q].children, end, net);
    AllDecide(w, q, end, t, k, h, net);
    LeafDecides(FreeAll(w, q, w.queries[q].children, end, net), q, false, t, k, h, net);
  }

  lemma {:induction false} AllDecide(w: World, q: Addr, end: nat, t: Addr, k: nat, h: Handle, net: Net)
    requires Inv(w, None) && w.rules.strict && !w.wrapped && q in w.queries && forall x :: x in w.queries ==> x < end
    requires w.queries[q].explicit && w.queries[q].trans == Some(t) && Decided(w, t, k, h, net)
    ensures Decided(FreeAll(w, q, w.queries[q].children, end, net), t, k, h, net)
    decreases end - q, 0, |w.queries[q].children|
  {
    hide Inv, FreeTree, Decided;
    var children := w.queries[q].children;
    if children != [] {
      var c := children[0];
      ChildLive(w, q, c, None);
      ChildFamily(w, q, c, t);
      FreeTreeKeeps(w, c, end, net, None);
      TreeQuiet(w, c, false, end, net);
      TreeDecides(w, c, end, t, k, h, net);
      var w1 := FreeTree(w, c, false, end, net);
      assert w1.queries[q].children == children[1..];
      AllDecide(w1, q, end, t, k, h, net);
    }
  }

  lemma QueryDecides(w: World, q: Addr, t: Addr, k: nat, h: Handle, net: Net)
    requires Inv(w, None) && w.rules.strict && !w.wrapped && Fetched(w, q)
    requires w.queries[q].explicit && w.queries[q].trans == Some(t) && Decided(w, t, k, h, net)
    ensures Decided(FreeQuery(w, q, net), t, k, h, net)
  {
    hide Inv, DestroyLeaf, FreeAll, Decided;
    FreshAddress(w, None);
    FreeAllKeeps(w, q, w.next, net, None);
    AllQuiet(w, q, w.queries[q].children, w.next, net);
    AllDecide(w, q, w.next, t, k, h, net);
    LeafDecides(FreeAll(w, q, w.queries[q].children, w.next, net), q, true, t, k, h, net);
  }

  // ------------------------------------------------------------ who is left

  /** All that is enrolled on `t`, which holds locks and has no batch, is under `q`. */
  ghost predicate LastOf(w: World, q: Addr, t: Addr) {
    && t in w.trans && Started(w.trans[t]) && w.trans[t].handle.value.locks && w.trans[t].batches == []
    && forall x :: x in w.trans[t].queries ==> Under(w.queries, x, q)
  }

  /** Every query of some transaction that holds locks, and has no batch, goes with `q`. */
  ghost predicate LastGoes(w: World, q: Addr) { exists t :: LastOf(w, q, t) }

  lemma LastIsHere(w: World, q: Addr, t: Addr)
    requires Released(w) && Inv(w, None) && !w.wrapped && q in w.queries && LastOf(w, q, t)
    ensures w.trans[t].queries != [] && w.trans[t].retain && w.queries[q].explicit && w.queries[q].trans == Some(t)
  {
    hide Inv;
    assert Retains(w.trans[t]);
    var x := w.trans[t].queries[0];
    ListedExplicit(w, x, t);
    FamiliesOf(w, None);
    UnderFamily(w.queries, x, q);
  }

  /** The queries that are not under `q` stay; `spared` may keep its locks. */
  ghost function Besides(Q: map<Addr, Query>, q: Addr, spared: iset<Addr>): Spared {
    Spared(spared, ALL, iset x: Addr | !Under(Q, x, q))
  }

  lemma BesidesTree(Q: map<Addr, Query>, q: Addr, spared: iset<Addr>)
    ensures TreeFreeable(Q, q, Besides(Q, q, spared))
  {}

  lemma ReleasedBesides(w: World, q: Addr)
    requires Released(w) && !LastGoes(w, q)
    ensures Held(w, Besides(w.queries, q, iset{}))
  {
    if !w.wrapped {
      forall t | t in w.trans ensures HeldTrans(w.trans[t], t, Besides(w.queries, q, iset{})) {
        assert !LastOf(w, q, t);
      }
    }
  }

  /** No other transaction loses its last query with `q`. */
  lemma OthersBesides(w: World, q: Addr, t: Addr)
    requires Released(w) && Inv(w, None) && !w.wrapped && q in w.queries && LastOf(w, q, t)
    ensures Held(w, Besides(w.queries, q, iset{t}))
  {
    hide Inv, LastOf, Enrolls;
    LastIsHere(w, q, t);
    forall u | u in w.trans ensures HeldTrans(w.trans[u], u, Besides(w.queries, q, iset{t})) {
      if u != t && Started(w.trans[u]) && w.trans[u].handle.value.locks {
        if LastOf(w, q, u) { LastIsHere(w, q, u); } else { NotLast(w, q, u); }
      }
    }
  }

  lemma NotLast(w: World, q: Addr, u: Addr)
    requires u in w.trans && !LastOf(w, q, u) && Started(w.trans[u]) && w.trans[u].handle.value.locks
    ensures forall spared :: Anchored(w.trans[u], Besides(w.queries, q, spared).kept)
  {}

  lemma FreeEnlists(w: World, q: Addr, net: Net)
    requires Enlisted(w) && Inv(w, None) && w.rules.strict && Fetched(w, q)
    ensures Enlisted(FreeQuery(w, q, net))
  {
    hide Inv, Enlisted, Held, FreeQuery, TreeFreeable, LOOSE;
    EnlistedIs(w);
    LooseTree(w.queries, q);
    FreeQueryHolds(w, q, net, None, LOOSE);
    EnlistedIs(FreeQuery(w, q, net));
  }

  lemma OthersReleased(w: World, t: Addr, X: Spared)
    requires Held(w, X) && X.locks == iset{t} && t in w.trans && !w.wrapped
    ensures (Retains(w.trans[t]) ==> w.trans[t].retain && Enrolls(w.trans[t])) <==> Released(w)
  {
    forall u | u in w.trans && u != t && Retains(w.trans[u]) ensures w.trans[u].retain && Enrolls(w.trans[u]) {
      assert HeldTrans(w.trans[u], u, X);
    }
  }

  /** The answer to the one call decides. */
  lemma LastReleased(w: World, q: Addr, t: Addr, net: Net)
    requires Released(w) && Inv(w, None) && w.rules.strict && !w.wrapped && Fetched(w, q) && LastOf(w, q, t)
    ensures Released(FreeQuery(w, q, net)) <==> net(w.tick)
  {
    LastIsDue(w, q, t, net);
    hide Inv, Held, Released, FreeQuery, FreeTree, TreeFreeable, Besides, Removed, Decided, Retains, Enrolls, LastOf,
         Under;
    var (h, r, X) := (w.trans[t].handle.value, FreeQuery(w, q, net), Besides(w.queries, q, iset{t}));
    QueryDecides(w, q, t, w.tick, h, net);
    FreeQueryKeeps(w, q, net, None);
    FreeRemoves(w, q, net, None);
    TreeQuiet(w, q, true, w.next, net);
    ListLeft(w, r, q, t);
    OthersBesides(w, q, t);
    BesidesTree(w.queries, q, iset{t});
    FreeQueryHolds(w, q, net, None, X);
    BesidesLocks(w.queries, q, iset{t});
    OthersReleased(r, t, X);
    AnswerDecides(r, t, w.tick, h, net);
  }

  lemma LastIsDue(w: World, q: Addr, t: Addr, net: Net)
    requires Released(w) && Inv(w, None) && !w.wrapped && q in w.queries && LastOf(w, q, t)
    ensures t in w.trans && w.trans[t].handle.Some? && w.trans[t].handle.value.locks
    ensures w.queries[q].explicit && w.queries[q].trans == Some(t) &&
            Decided(w, t, w.tick, w.trans[t].handle.value, net)
    ensures forall x :: x in w.trans[t].queries ==> Under(w.queries, x, q)
  {
    hide Inv;
    LastIsHere(w, q, t);
  }

  lemma AnswerDecides(r: World, t: Addr, k: nat, h: Handle, net: Net)
    requires Decided(r, t, k, h, net) && r.trans[t].queries == [] && h.locks
    ensures (Retains(r.trans[t]) ==> r.trans[t].retain && Enrolls(r.trans[t])) <==> net(k)
  {}

  lemma BesidesLocks(Q: map<Addr, Query>, q: Addr, spared: iset<Addr>)
    ensures Besides(Q, q, spared).locks == spared
  {}

  /** Freeing a query leaves nobody without a release, if and only if the server accepts the next call where the
      last query of a transaction with locks goes. */
  lemma FreeReleases(w: World, q: Addr, net: Net)
    requires Released(w) && Inv(w, None) && w.rules.strict && !w.wrapped && Fetched(w, q)
    ensures Released(FreeQuery(w, q, net)) <==> (LastGoes(w, q) ==> net(w.tick))
  {
    hide Inv, Held, Released, FreeQuery, TreeFreeable, LastOf, Besides;
    if LastGoes(w, q) {
      var t :| LastOf(w, q, t);
      LastReleased(w, q, t, net);
    } else {
      ReleasedBesides(w, q);
      BesidesTree(w.queries, q, iset{});
      BesidesLocks(w.queries, q, iset{});
      FreeQueryHolds(w, q, net, None, Besides(w.queries, q, iset{}));
      HeldReleased(FreeQuery(w, q, net), Besides(w.queries, q, iset{}));
    }
  }
}
