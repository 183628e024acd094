/** Freeing, preparing and executing queries keep the invariant. */
module QueriesKeep {
  import opened State
  import opened Transactions
  import opened Queries
  import opened Invariant
  import opened TransactionsKeep
  import opened StructureKeeps

  // ------------------------------------------------------------ one query

  /** What freeing leaves alone: everything but registries, cursors and the queries freed. */
  ghost predicate Around(w: World, w1: World) {
    && Same(w1.links, w.links) && w1.batches.Keys == w.batches.Keys && w1.trans.Keys == w.trans.Keys
    && w1.queries.Keys <= w.queries.Keys && w1.next == w.next && w1.rules == w.rules
  }

  lemma AroundChain(w: World, w1: World, w2: World)
    requires Around(w, w1) && Around(w1, w2)
    ensures Around(w, w2)
  {}

  /** Every query but `q` is as it was. */
  ghost predicate Others(Q: map<Addr, Query>, Q': map<Addr, Query>, q: Addr) {
    forall x :: x in Q && x != q ==> x in Q' && Same(Q'[x], Q[x])
  }


  lemma ShutKeeps(w: World, q: Addr, net: Net, aux: Option<Addr>)
    requires Inv(w, aux) && q in w.queries
    ensures Inv(Shut(w, q, net), aux) && q in Shut(w, q, net).queries && !Shut(w, q, net).queries[q].isOpen
  {
    hide Inv, CursorClosed;
    ClosedKeeps(w, q, net, aux);
    MoreKeeps(CursorClosed(w, q, net), q, false, aux);
  }

  /** In a strict run an open one-shot result is fetched before it is freed, unless its transaction is gone. */
  predicate Fetched(w: World, q: Addr) {
    q in w.queries && (w.rules.strict && w.queries[q].isOpen && w.queries[q].trans.Some? ==> w.queries[q].stmt.Some?)
  }

  lemma CloseForFreeKeeps(w: World, q: Addr, mirror: bool, net: Net, aux: Option<Addr>)
    requires Inv(w, aux) && q in w.queries
    ensures Inv(CloseForFree(w, q, mirror, net), aux)
    ensures q in CloseForFree(w, q, mirror, net).queries &&
            SameRole(w.queries[q], CloseForFree(w, q, mirror, net).queries[q])
    ensures Around(w, CloseForFree(w, q, mirror, net))
    ensures CloseForFree(w, q, mirror, net).queries[q].isOpen ==> w.queries[q].isOpen && w.queries[q].stmt.None?
    ensures !mirror ==> Others(w.queries, CloseForFree(w, q, mirror, net).queries, q)
  {
    hide Inv, Shut, QueryOnLink;
    QueryLive(w, q, aux);
    if w.queries[q].stmt.Some? && w.queries[q].isOpen {
      ShutKeeps(w, q, net, aux);
      if mirror && w.queries[q].parent.Some? { ShutKeeps(Shut(w, q, net), w.queries[q].parent.value, net, aux); }
    }
  }

  lemma CommitOnFreeKeeps(w: World, q: Addr, had: bool, net: Net, aux: Option<Addr>)
    requires Inv(w, aux) && q in w.queries
    ensures Inv(CommitOnFree(w, q, had, net), aux)
    ensures SameLayout(w, CommitOnFree(w, q, had, net)) && Same(CommitOnFree(w, q, had, net).queries, w.queries)
  {
    hide Inv;
    QueryLive(w, q, aux);
    if w.queries[q].trans.Some? {
      var t := w.queries[q].trans.value;
      LinkLive(w, t, aux);
      TickKeeps(w, aux);
      FreeHandleKeeps(Tick(w), t, aux);
      EndAndDropKeeps(Tick(w), t, true, true, net, aux);
    }
  }

  /** The state in which DestroyLeaf removes its query. */
  function Cleared(w: World, q: Addr, mirror: bool, net: Net): World
    requires q in w.queries
  {
    CommitOnFree(DropStmt(CloseForFree(w, q, mirror, net), q), q, w.queries[q].isOpen, net)
  }

  /** Two query structs with the same pointers, except that a handle may have been dropped. */
  ghost predicate SamePointers(a: Query, b: Query) {
    && b.trans == a.trans && b.reg == a.reg && b.parent == a.parent && b.children == a.children
    && b.explicit == a.explicit && b.link == a.link
  }

  lemma DroppedIs(w: World, q: Addr)
    requires q in w.queries
    ensures var r := DropStmt(w, q);
            && q in r.queries && SamePointers(w.queries[q], r.queries[q]) && r.rules == w.rules
            && !(r.queries[q].owns && r.queries[q].stmt.Some?) && r.queries[q].isOpen == w.queries[q].isOpen
  {
    DroppedEither(w, q);
    hide DropStmt;
  }

  lemma DroppedEither(w: World, q: Addr)
    requires q in w.queries
    ensures var (r, qq) := (DropStmt(w, q), w.queries[q]);
            && q in r.queries && r.rules == w.rules
            && Same(r.queries[q], if qq.stmt.Some? && qq.owns then qq.(stmt := None, owns := false) else qq)
  {}

  lemma ClearedKeeps(w: World, q: Addr, mirror: bool, net: Net, aux: Option<Addr>)
    requires Inv(w, aux) && q in w.queries && w.queries[q].children == []
    ensures Inv(Cleared(w, q, mirror, net), aux) && q in Cleared(w, q, mirror, net).queries
    ensures var qq := Cleared(w, q, mirror, net).queries[q];
            SamePointers(w.queries[q], qq) && !(qq.owns && qq.stmt.Some?) &&
            (qq.isOpen ==> w.queries[q].isOpen && w.queries[q].stmt.None?)
    ensures Cleared(w, q, mirror, net).rules == w.rules
  {
    hide Inv, CloseForFree, CommitOnFree, QueryOnLink, DropStmt;
    CloseForFreeKeeps(w, q, mirror, net, aux);
    var w0 := CloseForFree(w, q, mirror, net);
    QueryLive(w0, q, aux);
    DropKeeps(w0, q, aux);
    DroppedIs(w0, q);
    CommitOnFreeKeeps(DropStmt(w0, q), q, w.queries[q].isOpen, net, aux);
  }

  lemma DestroyLeafKeeps(w: World, q: Addr, mirror: bool, net: Net, aux: Option<Addr>)
    requires Inv(w, aux) && Fetched(w, q) && w.queries[q].children == []
    ensures Inv(DestroyLeaf(w, q, mirror, net), aux)
  {
    hide Inv, CloseForFree, CommitOnFree, ReleaseIfIdle, RemoveQuery, QueryOnLink, DropStmt;
    ClearedKeeps(w, q, mirror, net, aux);
    var w2 := Cleared(w, q, mirror, net);
    QueryLive(w2, q, aux);
    RemoveQueryKeeps(w2, q, aux);
    RemoveQueryIs(w2, q);
    if w.queries[q].trans.Some? { ReleaseKeeps(RemoveQuery(w2, q), w.queries[q].trans.value, net, aux); }
  }

  lemma RemoveQueryIs(w: World, q: Addr)
    requires q in w.queries && (w.queries[q].reg.Some? ==> w.queries[q].reg.value in w.trans)
    requires w.queries[q].parent.Some? ==> w.queries[q].parent.value in w.queries
    ensures RemoveQuery(w, q) == w.(trans := Left(w.trans, w.queries[q].reg, q), queries := Pruned(w.queries, q))
    ensures RemoveQuery(w, q).trans.Keys == w.trans.Keys
  {}

  // ------------------------------------------------------------ a query and everything below it

  /** Only the child list of the parent of `q` differs in `Q'`, below `q`. */
  ghost predicate ParentOnly(Q: map<Addr, Query>, Q': map<Addr, Query>, q: Addr) {
    forall x :: x in Q && x != q ==>
      && x in Q'
      && Same(Q'[x], if q in Q && Q[q].parent == Some(x) then Q[x].(children := Without(Q[x].children, q)) else Q[x])
  }

  lemma DestroyLeafAround(w: World, q: Addr, mirror: bool, net: Net, aux: Option<Addr>)
    requires Inv(w, aux) && q in w.queries && w.queries[q].children == []
    ensures Around(w, DestroyLeaf(w, q, mirror, net))
    ensures q !in DestroyLeaf(w, q, mirror, net).queries
    ensures !mirror ==> ParentOnly(w.queries, DestroyLeaf(w, q, mirror, net).queries, q)
  {
    hide Inv, CloseForFree, CommitOnFree, ReleaseIfIdle, RemoveQuery, QueryOnLink, DropStmt;
    ClearedKeeps(w, q, mirror, net, aux);
    ClearedAround(w, q, mirror, net, aux);
    var w2 := Cleared(w, q, mirror, net);
    QueryLive(w2, q, aux);
    RemoveQueryIs(w2, q);
    PrunedKeys(w2.queries, q);
  }

  lemma ClearedAround(w: World, q: Addr, mirror: bool, net: Net, aux: Option<Addr>)
    requires Inv(w, aux) && q in w.queries && w.queries[q].children == []
    ensures Around(w, Cleared(w, q, mirror, net))
    ensures !mirror ==> Others(w.queries, Cleared(w, q, mirror, net).queries, q)
  {
    hide Inv, CommitOnFree, QueryOnLink, CloseForFree, DropStmt;
    CloseForFreeKeeps(w, q, mirror, net, aux);
    var w0 := CloseForFree(w, q, mirror, net);
    QueryLive(w0, q, aux);
    DropKeeps(w0, q, aux);
    DropAround(w0, q);
    CommitOnFreeKeeps(DropStmt(w0, q), q, w.queries[q].isOpen, net, aux);
  }

  lemma DropAround(w: World, q: Addr)
    requires q in w.queries
    ensures Around(w, DropStmt(w, q)) && q in DropStmt(w, q).queries
    ensures Others(w.queries, DropStmt(w, q).queries, q)
  {}

  /** Freeing `q` and everything below it changes nothing at lower addresses but the child list of its
      parent: descendants have higher addresses. */
  ghost predicate Above(Q: map<Addr, Query>, Q': map<Addr, Query>, q: Addr) {
    forall x :: x in Q && x < q ==>
      && x in Q'
      && Same(Q'[x], if q in Q && Q[q].parent == Some(x) then Q[x].(children := Without(Q[x].children, q)) else Q[x])
  }

  lemma {:induction false} FreeTreeKeeps(w: World, q: Addr, end: nat, net: Net, aux: Option<Addr>)
    requires Inv(w, aux) && Fetched(w, q) && forall x :: x in w.queries ==> x < end
    ensures var w1 := FreeTree(w, q, false, end, net); Inv(w1, aux) && Around(w, w1) && Above(w.queries, w1.queries, q)
    decreases end - q, 1, 0
  {
    hide Inv, DestroyLeaf;
    FreeAllKeeps(w, q, end, net, aux);
    var w1 := FreeAll(w, q, w.queries[q].children, end, net);
    DestroyLeafKeeps(w1, q, false, net, aux);
    DestroyLeafAround(w1, q, false, net, aux);
    AroundChain(w, w1, DestroyLeaf(w1, q, false, net));
  }

  lemma {:induction false} FreeAllKeeps(w: World, q: Addr, end: nat, net: Net, aux: Option<Addr>)
    requires Inv(w, aux) && q in w.queries && forall x :: x in w.queries ==> x < end
    ensures var w1 := FreeAll(w, q, w.queries[q].children, end, net);
            && Inv(w1, aux) && Around(w, w1)
            && (forall x :: x in w.queries && x < q ==> x in w1.queries && Same(w1.queries[x], w.queries[x]))
            && q in w1.queries && Same(w1.queries[q], w.queries[q].(children := []))
    decreases end - q, 0, |w.queries[q].children|
  {
    hide Inv, FreeTree;
    var children := w.queries[q].children;
    if children != [] {
      var c := children[0];
      ChildLive(w, q, c, aux);
      FreeTreeKeeps(w, c, end, net, aux);
      var w1 := FreeTree(w, c, false, end, net);
      assert w1.queries[q].children == children[1..];
      FreeAllKeeps(w1, q, end, net, aux);
      AroundChain(w, w1, FreeAll(w1, q, children[1..], end, net));
    }
  }

  lemma ChildLive(w: World, q: Addr, c: Addr, aux: Option<Addr>)
    requires Inv(w, aux) && q in w.queries && c in w.queries[q].children
    ensures q < c && c in w.queries && w.queries[c].parent == Some(q) && w.queries[c].stmt.Some?
  {
    assert ChildrenOk(w.queries, w.queries[q], q) && ParentOk(w.queries, w.queries[c], c);
  }

  lemma FreeQueryKeeps(w: World, q: Addr, net: Net, aux: Option<Addr>)
    requires Inv(w, aux) && Fetched(w, q)
    ensures Inv(FreeQuery(w, q, net), aux) && Around(w, FreeQuery(w, q, net))
  {
    hide Inv, DestroyLeaf, FreeAll;
    FreshAddress(w, aux);
    FreeAllKeeps(w, q, w.next, net, aux);
    var w1 := FreeAll(w, q, w.queries[q].children, w.next, net);
    DestroyLeafKeeps(w1, q, true, net, aux);
    DestroyLeafAround(w1, q, true, net, aux);
    AroundChain(w, w1, DestroyLeaf(w1, q, true, net));
  }
}
