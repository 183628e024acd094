/** What freeing a query removes: exactly the query and what hangs below it. A transaction that still has a
    batch keeps its handle and its mark meanwhile. */
module Cascade {
  import opened State
  import opened Transactions
  import opened Queries
  import opened Invariant
  import opened TransactionsKeep
  import opened StructureKeeps
  import opened QueriesKeep
  import opened Outcomes

  /** Every query of `P` is one of `Q` in the same place. */
  ghost predicate Staying(Q: map<Addr, Query>, P: map<Addr, Query>) {
    forall x :: x in P ==> x in Q && P[x].parent == Q[x].parent && P[x].trans == Q[x].trans && P[x].reg == Q[x].reg
  }

  /** `P` is `Q` without `q` and what is below it, or with `q` itself left. */
  ghost predicate Removed(Q: map<Addr, Query>, P: map<Addr, Query>, q: Addr, itself: bool) {
    Staying(Q, P) && forall x :: x in P <==> x in Q && (Under(Q, x, q) ==> x == q && !itself)
  }

  // ------------------------------------------------------------ one query

  lemma StayingChain(Q: map<Addr, Query>, P: map<Addr, Query>, R: map<Addr, Query>)
    requires Staying(Q, P) && Staying(P, R)
    ensures Staying(Q, R)
  {}

  lemma FlagsStay(Q: map<Addr, Query>, P: map<Addr, Query>, q: Addr)
    requires OnlyFlags(Q, P, q)
    ensures Staying(Q, P) && P.Keys == Q.Keys
  {}

  lemma CloseStays(w: World, q: Addr, mirror: bool, net: Net)
    ensures var P := CloseForFree(w, q, mirror, net).queries; Staying(w.queries, P) && P.Keys == w.queries.Keys
  {
    hide Staying, Shut;
    if q in w.queries && w.queries[q].stmt.Some? {
      var w1 := Shut(UseStmt(w, w.queries[q].stmt.value), q, net);
      FlagsStay(w.queries, w1.queries, q);
      if w.queries[q].parent.Some? {
        var p := w.queries[q].parent.value;
        FlagsStay(w1.queries, Shut(w1, p, net).queries, p);
        StayingChain(w.queries, w1.queries, Shut(w1, p, net).queries);
      }
    }
    assert Staying(w.queries, w.queries) by { SelfStays(w.queries); }
  }

  lemma SelfStays(Q: map<Addr, Query>)
    ensures Staying(Q, Q)
  {}

  lemma DropStays(w: World, q: Addr)
    requires q in w.queries
    ensures var P := DropStmt(w, q).queries; Staying(w.queries, P) && P.Keys == w.queries.Keys
  {
    hide DropStmt;
    DroppedIs(w, q);
    DropAround(w, q);
    OthersStay(w.queries, DropStmt(w, q).queries, q);
  }

  lemma OthersStay(Q: map<Addr, Query>, P: map<Addr, Query>, q: Addr)
    requires Others(Q, P, q) && P.Keys <= Q.Keys && q in P && q in Q && SamePointers(Q[q], P[q])
    ensures Staying(Q, P) && P.Keys == Q.Keys
  {}

  lemma PrunedStays(Q: map<Addr, Query>, q: Addr)
    requires q in Q
    ensures Staying(Q, Pruned(Q, q)) && Pruned(Q, q).Keys == Q.Keys - {q}
  {}

  lemma LeafGoes(w: World, q: Addr, mirror: bool, net: Net, aux: Option<Addr>)
    requires Inv(w, aux) && q in w.queries && w.queries[q].children == []
    ensures var P := DestroyLeaf(w, q, mirror, net).queries; Staying(w.queries, P) && P.Keys == w.queries.Keys - {q}
  {
    hide Inv, Staying, CloseForFree, CommitOnFree, ReleaseIfIdle, RemoveQuery, QueryOnLink, DropStmt, Pruned;
    CloseStays(w, q, mirror, net);
    var w0 := CloseForFree(w, q, mirror, net);
    DropStays(w0, q);
    StayingChain(w.queries, w0.queries, DropStmt(w0, q).queries);
    ClearedKeeps(w, q, mirror, net, aux);
    CloseForFreeKeeps(w, q, mirror, net, aux);
    DropKeeps(w0, q, aux) by { SameChildren(w, q, mirror, net, aux); }
    CommitOnFreeKeeps(DropStmt(w0, q), q, w.queries[q].isOpen, net, aux);
    var w2 := Cleared(w, q, mirror, net);
    QueryLive(w2, q, aux);
    RemoveQueryIs(w2, q);
    PrunedStays(w2.queries, q);
    StayingChain(w.queries, w2.queries, Pruned(w2.queries, q));
  }

  lemma SameChildren(w: World, q: Addr, mirror: bool, net: Net, aux: Option<Addr>)
    requires Inv(w, aux) && q in w.queries
    ensures q in CloseForFree(w, q, mirror, net).queries &&
            CloseForFree(w, q, mirror, net).queries[q].children == w.queries[q].children
  {
    hide Inv, CloseForFree;
    CloseForFreeKeeps(w, q, mirror, net, aux);
  }

  // ------------------------------------------------------------ everything below a query

  lemma {:induction false} UnderAbove(Q: map<Addr, Query>, x: Addr, q: Addr)
    requires Under(Q, x, q)
    ensures q <= x && (x != q ==> x in Q)
    decreases x
  {
    if x != q { UnderAbove(Q, Q[x].parent.value, q); }
  }

  /** Below a child is below its parent. */
  lemma {:induction false} UnderChild(Q: map<Addr, Query>, x: Addr, c: Addr, q: Addr)
    requires Under(Q, x, c) && c in Q && Q[c].parent == Some(q) && q < c
    ensures Under(Q, x, q)
    decreases x
  {
    if x != c {
      UnderAbove(Q, Q[x].parent.value, c);
      UnderChild(Q, Q[x].parent.value, c, q);
    } else { assert Under(Q, q, q); }
  }

  /** Nothing is below a query without children. */
  lemma {:induction false} NothingUnder(Q: map<Addr, Query>, x: Addr, q: Addr)
    requires Tree(Q) && q in Q && Q[q].children == [] && Under(Q, x, q)
    ensures x == q
    decreases x
  {
    if x != q {
      assert ParentOk(Q, Q[x], x);
      NothingUnder(Q, Q[x].parent.value, q);
    }
  }

  /** Being below `q` does not change for those that stay when a child of `q` goes. */
  lemma {:induction false} UnderStays(Q: map<Addr, Query>, P: map<Addr, Query>, x: Addr, c: Addr, q: Addr)
    requires Tree(Q) && Removed(Q, P, c, true) && x in P
    ensures Under(P, x, q) <==> Under(Q, x, q)
    decreases x
  {
    if x != q && Q[x].parent.Some? {
      var p := Q[x].parent.value;
      ParentOther(Q, x);
      UnderStays(Q, P, p, c, q);
    }
  }

  lemma TreeOf(w: World, aux: Option<Addr>)
    requires Inv(w, aux)
    ensures Tree(w.queries)
  {}

  lemma LeafRemoves(w: World, q: Addr, mirror: bool, net: Net, aux: Option<Addr>)
    requires Inv(w, aux) && q in w.queries && w.queries[q].children == []
    ensures Removed(w.queries, DestroyLeaf(w, q, mirror, net).queries, q, true)
  {
    hide Inv, DestroyLeaf, Tree, Families, Removed;
    TreeOf(w, aux);
    LeafGoes(w, q, mirror, net, aux);
    Alone(w.queries, DestroyLeaf(w, q, mirror, net).queries, q);
  }

  lemma Alone(Q: map<Addr, Query>, P: map<Addr, Query>, q: Addr)
    requires Tree(Q) && q in Q && Q[q].children == [] && Staying(Q, P) && P.Keys == Q.Keys - {q}
    ensures Removed(Q, P, q, true)
  {
    hide Tree, Families;
    forall x | x in Q ensures Under(Q, x, q) <==> x == q { if Under(Q, x, q) { NothingUnder(Q, x, q); } }
  }

  /** First the rest goes, then the query itself. */
  lemma RemovedBoth(Q: map<Addr, Query>, P: map<Addr, Query>, R: map<Addr, Query>, q: Addr)
    requires Removed(Q, P, q, false) && Removed(P, R, q, true)
    ensures Removed(Q, R, q, true)
  {
    forall x | x in P ensures Under(P, x, q) <==> x == q {
      if x != q && Under(P, x, q) { UnderBefore(Q, P, x, q); }
    }
  }

  lemma {:induction false} UnderBefore(Q: map<Addr, Query>, P: map<Addr, Query>, x: Addr, q: Addr)
    requires Staying(Q, P) && Under(P, x, q)
    ensures Under(Q, x, q)
    decreases x
  {
    if x != q { UnderBefore(Q, P, P[x].parent.value, q); }
  }

  lemma {:induction false} TreeRemoves(w: World, q: Addr, end: nat, net: Net, aux: Option<Addr>)
    requires Inv(w, aux) && Fetched(w, q) && forall x :: x in w.queries ==> x < end
    ensures Removed(w.queries, FreeTree(w, q, false, end, net).queries, q, true)
    decreases end - q, 1, 0
  {
    hide Inv, DestroyLeaf, Removed;
    FreeAllKeeps(w, q, end, net, aux);
    AllRemoves(w, q, end, net, aux);
    var w1 := FreeAll(w, q, w.queries[q].children, end, net);
    LeafRemoves(w1, q, false, net, aux);
    RemovedBoth(w.queries, w1.queries, DestroyLeaf(w1, q, false, net).queries, q);
  }

  lemma {:induction false} AllRemoves(w: World, q: Addr, end: nat, net: Net, aux: Option<Addr>)
    requires Inv(w, aux) && q in w.queries && forall x :: x in w.queries ==> x < end
    ensures Removed(w.queries, FreeAll(w, q, w.queries[q].children, end, net).queries, q, false)
    decreases end - q, 0, |w.queries[q].children|
  {
    TreeOf(w, aux);
    hide Inv, FreeTree, Removed, Tree, Families;
    var children := w.queries[q].children;
    if children != [] {
      var c := children[0];
      ChildLive(w, q, c, aux);
      FreeTreeKeeps(w, c, end, net, aux);
      TreeRemoves(w, c, end, net, aux);
      var w1 := FreeTree(w, c, false, end, net);
      assert w1.queries[q].children == children[1..];
      AllRemoves(w1, q, end, net, aux);
      OneMore(w.queries, w1.queries, FreeAll(w1, q, children[1..], end, net).queries, c, q);
    } else {
      NoneBelow(w.queries, q);
    }
  }

  lemma NoneBelow(Q: map<Addr, Query>, q: Addr)
    requires Tree(Q) && q in Q && Q[q].children == []
    ensures Removed(Q, Q, q, false)
  {
    forall x | x in Q && Under(Q, x, q) ensures x == q { NothingUnder(Q, x, q); }
  }

  lemma OneMore(Q: map<Addr, Query>, P: map<Addr, Query>, R: map<Addr, Query>, c: Addr, q: Addr)
    requires Tree(Q) && c in Q && Q[c].parent == Some(q) && q < c && Removed(Q, P, c, true) && Removed(P, R, q, false)
    ensures Removed(Q, R, q, false)
  {
    hide Tree, Families;
    StayingChain(Q, P, R);
    forall x | x in Q ensures x in R <==> (Under(Q, x, q) ==> x == q) {
      if x in P { UnderStays(Q, P, x, c, q); }
      else { UnderChild(Q, x, c, q); UnderAbove(Q, x, c); }
    }
  }

  /** Freeing a query frees exactly what is under it, and everything else stays where it is. */
  lemma FreeRemoves(w: World, q: Addr, net: Net, aux: Option<Addr>)
    requires Inv(w, aux) && Fetched(w, q)
    ensures Removed(w.queries, FreeQuery(w, q, net).queries, q, true)
  {
    hide Inv, DestroyLeaf, FreeAll, Removed;
    FreshAddress(w, aux);
    FreeAllKeeps(w, q, w.next, net, aux);
    AllRemoves(w, q, w.next, net, aux);
    var w1 := FreeAll(w, q, w.queries[q].children, w.next, net);
    LeafRemoves(w1, q, true, net, aux);
    RemovedBoth(w.queries, w1.queries, DestroyLeaf(w1, q, true, net).queries, q);
  }

  /** The queries left on `t` after `q` and what is under it are gone. */
  lemma ListLeft(w: World, w1: World, q: Addr, t: Addr)
    requires Inv(w, None) && Inv(w1, None) && Removed(w.queries, w1.queries, q, true) && t in w.trans && t in w1.trans
    ensures w1.trans[t].queries == [] <==> forall x :: x in w.trans[t].queries ==> Under(w.queries, x, q)
  {
    assert RegistryOk(w.trans[t], t, w.queries) && RegistryOk(w1.trans[t], t, w1.queries);
    if w1.trans[t].queries == [] {
      forall x | x in w.trans[t].queries ensures Under(w.queries, x, q) {
        assert x in w1.queries ==> QueryEnrolled(w1.trans, w1.queries[x], x);
      }
    } else {
      var x := w1.trans[t].queries[0];
      assert QueryEnrolled(w.trans, w.queries[x], x);
    }
  }

  // ------------------------------------------------------------ a transaction with a batch

  /** An explicit transaction with a batch keeps its handle, its mark and its batches. */
  ghost predicate Carried(w: World, r: World, t: Addr) {
    && t in w.trans && t in r.trans
    && Same(r.trans[t], w.trans[t].(count := r.trans[t].count, queries := r.trans[t].queries))
  }

  ghost predicate Carrying(w: World, t: Addr) { t in w.trans && !w.trans[t].isDefault && w.trans[t].batches != [] }

  lemma ShutCarries(w: World, q: Addr, net: Net, t: Addr)
    requires Carrying(w, t)
    ensures Carried(w, Shut(w, q, net), t)
  {
    hide SameLayout, OnlyFlags, CountDown;
    if q in w.queries && w.queries[q].trans.Some? { DownCarries(w, w.queries[q].trans.value, net, t); }
  }

  lemma ReleaseCarries(w: World, u: Addr, net: Net, t: Addr)
    requires Carrying(w, t)
    ensures Carried(w, ReleaseIfIdle(w, u, net), t)
  {
    hide CommitRestart, SameLayout;
  }

  lemma DownCarries(w: World, u: Addr, net: Net, t: Addr)
    requires Carrying(w, t)
    ensures Carried(w, CountDown(w, u, net), t)
  {
    hide ReleaseIfIdle, SameLayout, OnlyTrans, Carrying, Carried;
    CarriedSelf(w, t);
    if u in w.trans && w.trans[u].count > 0 {
      var w1 := SetT(w, u, w.trans[u].(count := w.trans[u].count - 1));
      CountCarries(w, u, w.trans[u].count - 1, t);
      ReleaseCarries(w1, u, net, t);
      CarriedChain(w, w1, ReleaseIfIdle(w1, u, net), t);
    }
  }

  lemma CarriedSelf(w: World, t: Addr)
    requires Carrying(w, t)
    ensures Carried(w, w, t) && Carried(w, Fault(w), t)
  {}

  lemma CountCarries(w: World, u: Addr, n: nat, t: Addr)
    requires Carrying(w, t) && u in w.trans
    ensures var w1 := SetT(w, u, w.trans[u].(count := n)); Carried(w, w1, t) && Carrying(w1, t)
  {}

  lemma CarriedChain(w: World, w1: World, r: World, t: Addr)
    requires Carried(w, w1, t) && Carried(w1, r, t)
    ensures Carried(w, r, t)
  {}

  lemma CloseCarries(w: World, q: Addr, mirror: bool, net: Net, t: Addr)
    requires Carrying(w, t)
    ensures Carried(w, CloseForFree(w, q, mirror, net), t)
  {
    hide Shut;
    if q in w.queries && w.queries[q].stmt.Some? {
      var w0 := UseStmt(w, w.queries[q].stmt.value);
      ShutCarries(w0, q, net, t);
      if w.queries[q].parent.Some? { ShutCarries(Shut(w0, q, net), w.queries[q].parent.value, net, t); }
    }
  }

  lemma DropCarries(w: World, q: Addr, t: Addr)
    requires Carrying(w, t)
    ensures Carried(w, DropStmt(w, q), t)
  {}

  lemma CommitCarries(w: World, q: Addr, had: bool, net: Net, t: Addr)
    requires Carrying(w, t)
    ensures Carried(w, CommitOnFree(w, q, had, net), t)
  {
    hide SameLayout, EndAndDrop, FreeHandle;
  }

  lemma RemoveCarries(w: World, q: Addr, t: Addr)
    requires Carrying(w, t)
    ensures Carried(w, RemoveQuery(w, q), t)
  {
    hide Pruned, Without;
  }

  lemma LeafCarries(w: World, q: Addr, mirror: bool, net: Net, t: Addr)
    requires Carrying(w, t)
    ensures Carried(w, DestroyLeaf(w, q, mirror, net), t)
  {
    hide CloseForFree, DropStmt, CommitOnFree, RemoveQuery, ReleaseIfIdle;
    if q in w.queries {
      CloseCarries(w, q, mirror, net, t);
      var w0 := CloseForFree(w, q, mirror, net);
      DropCarries(w0, q, t);
      CommitCarries(DropStmt(w0, q), q, w.queries[q].isOpen, net, t);
      var w2 := CommitOnFree(DropStmt(w0, q), q, w.queries[q].isOpen, net);
      RemoveCarries(w2, q, t);
      if w.queries[q].trans.Some? { ReleaseCarries(RemoveQuery(w2, q), w.queries[q].trans.value, net, t); }
    }
  }

  lemma {:induction false} TreeCarries(w: World, q: Addr, mirror: bool, end: nat, net: Net, t: Addr)
    requires Carrying(w, t)
    ensures Carried(w, FreeTree(w, q, mirror, end, net), t)
    decreases end - q, 1, 0
  {
    hide DestroyLeaf;
    if q in w.queries {
      AllCarries(w, q, w.queries[q].children, end, net, t);
      LeafCarries(FreeAll(w, q, w.queries[q].children, end, net), q, mirror, net, t);
    }
  }

  lemma {:induction false} AllCarries(w: World, q: Addr, children: seq<Addr>, end: nat, net: Net, t: Addr)
    requires Carrying(w, t)
    ensures Carried(w, FreeAll(w, q, children, end, net), t)
    decreases end - q, 0, |children|
  {
    hide FreeTree;
    if children != [] && q < children[0] < end {
      TreeCarries(w, children[0], false, end, net, t);
      AllCarries(FreeTree(w, children[0], false, end, net), q, children[1..], end, net, t);
    }
  }

  // ------------------------------------------------------------ batches and counters meanwhile

  /** The same batches and default transactions, and no counter has wrapped around. */
  ghost predicate Quiet(w: World, r: World) {
    Same(r.batches, w.batches) && r.wrapped == w.wrapped && SameDefaults(w.trans, r.trans)
  }

  ghost predicate SameDefaults(T: map<Addr, Trans>, R: map<Addr, Trans>) {
    R.Keys == T.Keys && forall t :: t in T ==> R[t].isDefault == T[t].isDefault
  }

  lemma OnlyDefaults(w: World, r: World, t: Addr)
    requires SameLayout(w, r) && OnlyTrans(w.trans, r.trans, t)
    ensures SameDefaults(w.trans, r.trans) && Same(r.batches, w.batches)
  {}

  lemma QuietChain(w: World, r: World, s: World)
    requires Quiet(w, r) && Quiet(r, s)
    ensures Quiet(w, s)
  {}

  lemma RestartQuiet(w: World, t: Addr, net: Net)
    ensures CommitRestart(w, t, net).1.wrapped == w.wrapped
  {
    hide TryCommit, RestartFromTpb, SameLayout, OnlyTrans;
    TryQuiet(w, t, net);
    AgainQuiet(FreeHandle(TryCommit(w, t, net).1, t), t, net);
  }

  lemma AgainQuiet(w: World, t: Addr, net: Net)
    ensures RestartFromTpb(w, t, net).1.wrapped == w.wrapped
  {
    hide SameLayout, OnlyTrans;
  }

  lemma ReleaseQuiet(w: World, t: Addr, net: Net)
    ensures Quiet(w, ReleaseIfIdle(w, t, net))
  {
    hide SameLayout, OnlyTrans, CommitRestart, SameDefaults;
    OnlyDefaults(w, ReleaseIfIdle(w, t, net), t);
    if t in w.trans { RestartQuiet(SetT(w, t, w.trans[t].(retain := false)), t, net); }
  }

  lemma DownQuiet(w: World, t: Addr, net: Net)
    ensures Quiet(w, CountDown(w, t, net))
  {
    hide ReleaseIfIdle, SameLayout, OnlyTrans, Quiet;
    SelfQuiet(w);
    if t in w.trans && w.trans[t].count > 0 {
      var w1 := SetT(w, t, w.trans[t].(count := w.trans[t].count - 1));
      CountQuiet(w, t, w.trans[t].count - 1);
      ReleaseQuiet(w1, t, net);
      QuietChain(w, w1, ReleaseIfIdle(w1, t, net));
    }
  }

  lemma CountQuiet(w: World, t: Addr, count: nat)
    requires t in w.trans
    ensures Quiet(w, SetT(w, t, w.trans[t].(count := count)))
  {}

  lemma ShutQuiet(w: World, q: Addr, net: Net)
    ensures Quiet(w, Shut(w, q, net))
  {
    hide SameLayout, OnlyFlags, CountDown;
    if q in w.queries && w.queries[q].trans.Some? { DownQuiet(w, w.queries[q].trans.value, net); }
  }

  lemma CloseQuiet(w: World, q: Addr, mirror: bool, net: Net)
    ensures Quiet(w, CloseForFree(w, q, mirror, net))
  {
    hide Shut, SameDefaults;
    assert SameDefaults(w.trans, w.trans) by { AlwaysSame(w.trans); }
    if q in w.queries && w.queries[q].stmt.Some? {
      var w0 := UseStmt(w, w.queries[q].stmt.value);
      ShutQuiet(w0, q, net);
      if w.queries[q].parent.Some? {
        ShutQuiet(Shut(w0, q, net), w.queries[q].parent.value, net);
        QuietChain(w, Shut(w0, q, net), Shut(Shut(w0, q, net), w.queries[q].parent.value, net));
      }
    }
  }

  lemma AlwaysSame(T: map<Addr, Trans>)
    ensures SameDefaults(T, T)
  {}

  lemma SelfQuiet(w: World)
    ensures Quiet(w, w) && Quiet(w, Fault(w)) && Quiet(w, Tick(w))
  {}

  lemma DropQuiet(w: World, q: Addr)
    ensures Quiet(w, DropStmt(w, q)) && Quiet(w, RemoveQuery(w, q))
  {
    hide Pruned, Left, SameDefaults;
    AlwaysSame(w.trans);
    if q in w.queries { LeftDefaults(w.trans, w.queries[q].reg, q); }
  }

  lemma LeftDefaults(T: map<Addr, Trans>, reg: Option<Addr>, q: Addr)
    ensures SameDefaults(T, Left(T, reg, q))
  {
    hide Without;
  }

  lemma CommitQuiet(w: World, q: Addr, had: bool, net: Net)
    ensures Quiet(w, CommitOnFree(w, q, had, net))
  {
    hide FreeHandle, EndAndDrop, Quiet;
    SelfQuiet(w);
    if q in w.queries && w.queries[q].trans.Some? {
      EndQuiet(Tick(w), w.queries[q].trans.value, net);
      QuietChain(w, Tick(w), EndAndDrop(Tick(w), w.queries[q].trans.value, true, true, net));
      QuietChain(w, Tick(w), FreeHandle(Tick(w), w.queries[q].trans.value));
    }
  }

  lemma EndQuiet(w: World, t: Addr, net: Net)
    ensures Quiet(w, FreeHandle(w, t)) && Quiet(w, EndAndDrop(w, t, true, true, net))
  {
    hide SameDefaults, SameLayout, OnlyTrans, TryCommit;
    OnlyDefaults(w, FreeHandle(w, t), t);
    OnlyDefaults(w, EndAndDrop(w, t, true, true, net), t);
    TryQuiet(w, t, net);
  }

  lemma TryQuiet(w: World, t: Addr, net: Net)
    ensures TryCommit(w, t, net).1.wrapped == w.wrapped
  {
    hide SameLayout, OnlyTrans;
  }

  lemma LeafQuiet(w: World, q: Addr, mirror: bool, net: Net)
    ensures Quiet(w, DestroyLeaf(w, q, mirror, net))
  {
    hide CloseForFree, DropStmt, CommitOnFree, RemoveQuery, ReleaseIfIdle, Quiet;
    SelfQuiet(w);
    if q in w.queries {
      CloseQuiet(w, q, mirror, net);
      var w0 := CloseForFree(w, q, mirror, net);
      DropQuiet(w0, q);
      var w1 := DropStmt(w0, q);
      QuietChain(w, w0, w1);
      CommitQuiet(w1, q, w.queries[q].isOpen, net);
      var w2 := CommitOnFree(w1, q, w.queries[q].isOpen, net);
      QuietChain(w, w1, w2);
      DropQuiet(w2, q);
      QuietChain(w, w2, RemoveQuery(w2, q));
      if w.queries[q].trans.Some? {
        ReleaseQuiet(RemoveQuery(w2, q), w.queries[q].trans.value, net);
        QuietChain(w, RemoveQuery(w2, q), DestroyLeaf(w, q, mirror, net));
      }
    }
  }

  lemma {:induction false} TreeQuiet(w: World, q: Addr, mirror: bool, end: nat, net: Net)
    ensures Quiet(w, FreeTree(w, q, mirror, end, net))
    decreases end - q, 1, 0
  {
    hide DestroyLeaf, Quiet;
    SelfQuiet(w);
    if q in w.queries {
      AllQuiet(w, q, w.queries[q].children, end, net);
      var w1 := FreeAll(w, q, w.queries[q].children, end, net);
      LeafQuiet(w1, q, mirror, net);
      QuietChain(w, w1, DestroyLeaf(w1, q, mirror, net));
    }
  }

  lemma {:induction false} AllQuiet(w: World, q: Addr, children: seq<Addr>, end: nat, net: Net)
    ensures Quiet(w, FreeAll(w, q, children, end, net))
    decreases end - q, 0, |children|
  {
    hide FreeTree, Quiet;
    SelfQuiet(w);
    if children != [] && q < children[0] < end {
      TreeQuiet(w, children[0], false, end, net);
      var w1 := FreeTree(w, children[0], false, end, net);
      AllQuiet(w1, q, children[1..], end, net);
      QuietChain(w, w1, FreeAll(w1, q, children[1..], end, net));
    }
  }
}
