/** Enrolling, allocating, handing over and freeing keep the invariant. */
module StructureKeeps {
  import opened State
  import opened Transactions
  import opened Queries
  import opened Invariant
  import opened TransactionsKeep

  // ------------------------------------------------------------ lists

  lemma {:induction false} WithoutIn<T>(s: seq<T>, x: T, y: T)
    ensures y in Without(s, x) ==> y in s
    ensures y != x ==> (y in Without(s, x) <==> y in s)
  {
    if s != [] && s[0] != x {
      WithoutIn(s[1..], x, y);
      assert s == [s[0]] + s[1..];
    }
  }

  lemma {:induction false} WithoutNoDup<T>(s: seq<T>, x: T)
    requires NoDup(s)
    ensures NoDup(Without(s, x)) && x !in Without(s, x)
  {
    if s != [] && s[0] != x {
      assert NoDup(s[1..]);
      WithoutNoDup(s[1..], x);
      WithoutIn(s[1..], x, s[0]);
    }
  }

  lemma ConsNoDup<T>(s: seq<T>, x: T)
    requires NoDup(s) && x !in s
    ensures NoDup([x] + s)
  {}

  // ------------------------------------------------------------ registries

  /** What a query and a transaction must have in common before the one may be enrolled on the other. */
  ghost predicate Fits(w: World, l: Addr, explicit: bool, t: Addr, aux: Option<Addr>) {
    t in w.trans &&
    var tr := w.trans[t];
    && (tr.link.Some? && !explicit ==> tr.link.value == l)
    && (tr.isDefault ==> !explicit)
    && (!explicit ==> tr.isDefault || aux == Some(t))
  }

  /** An open query may only be enrolled where it has already been counted. */
  ghost predicate Counted(w: World, q: Addr, t: Addr) {
    q in w.queries && t in w.trans &&
    (w.queries[q].isOpen && !w.wrapped ==>
        !w.rules.strict && Opens(w.queries, w.trans[t].queries) + 1 <= w.trans[t].count)
  }

  /** A statement of the caller's own transaction moves to no other while it has results, nor does a result. */
  predicate MayMove(qq: Query) { !qq.explicit || (qq.parent.None? && qq.children == []) }

  lemma MovedFamilies(Q: map<Addr, Query>, q: Addr, t: Option<Addr>)
    requires Tree(Q) && Families(Q) && q in Q && MayMove(Q[q])
    ensures Families(Q[q := Q[q].(trans := t, reg := t)])
  {
    var P := Q[q := Q[q].(trans := t, reg := t)];
    forall p | p in P ensures InFamily(P, P[p]) { assert InFamily(Q, Q[p]) && ParentOk(Q, Q[p], p); }
  }

  lemma EnrollKeeps(w: World, q: Addr, t: Addr, aux: Option<Addr>)
    requires Inv(w, aux) && Counted(w, q, t) && w.queries[q].trans.None? && MayMove(w.queries[q])
    requires Fits(w, w.queries[q].link, w.queries[q].explicit, t, aux)
    ensures Inv(Enroll(w, q, t), aux)
  {
    hide Inv, Shape, WorkOk, Tallied, QueryOnLink;
    PartsOf(w, aux);
    var T := w.trans[t := w.trans[t].(queries := [q] + w.trans[t].queries)];
    OnItsLink(w, q, t, aux);
    EnrollShape(w.links, w.trans, w.queries, w.batches, w.stmts, q, t, aux);
    WorkLike(w.trans, T, w.durable, w.next, w.next);
    EnrollTally(w.trans, w.queries, q, t, w.rules.strict, w.wrapped);
    Rebuilt(w, T, w.queries[q := w.queries[q].(trans := Some(t), reg := Some(t))], w.stmts, w.next, w.wrapped, aux);
  }

  lemma OnItsLink(w: World, q: Addr, t: Addr, aux: Option<Addr>)
    requires q in w.queries && Fits(w, w.queries[q].link, w.queries[q].explicit, t, aux)
    ensures QueryOnLink(w.trans, w.queries[q].(trans := Some(t)), aux)
  {}

  lemma EnrollTally(T: map<Addr, Trans>, Q: map<Addr, Query>, q: Addr, t: Addr, strict: bool, wrapped: bool)
    requires Tallied(T, Q, strict, wrapped) && q in Q && t in T
    requires Q[q].isOpen && !wrapped ==> !strict && Opens(Q, T[t].queries) + 1 <= T[t].count
    ensures Tallied(T[t := T[t].(queries := [q] + T[t].queries)], Q[q := Q[q].(trans := Some(t), reg := Some(t))],
                    strict, wrapped)
  {
    var R := T[t := T[t].(queries := [q] + T[t].queries)];
    var P := Q[q := Q[q].(trans := Some(t), reg := Some(t))];
    forall u | u in R && !wrapped ensures CountOk(P, R[u], strict) {
      assert CountOk(Q, T[u], strict);
      OpensLike(Q, P, R[u].queries);
      assert u == t ==> R[t].queries[1..] == T[t].queries;
    }
  }

  lemma EnrollShape(L: map<Addr, Link>, T: map<Addr, Trans>, Q: map<Addr, Query>, B: map<Addr, Batch>, S: set<Addr>,
                    q: Addr, t: Addr, aux: Option<Addr>)
    requires Shape(L, T, Q, B, S, aux) && q in Q && Q[q].trans.None? && t in T &&
             QueryOnLink(T, Q[q].(trans := Some(t)), aux)
    requires MayMove(Q[q])
    ensures Shape(L, T[t := T[t].(queries := [q] + T[t].queries)], Q[q := Q[q].(trans := Some(t), reg := Some(t))], B,
                  S, aux)
  {
    hide Registered, Batched, Linked, SameLink, Tree, Families, Handles, Columns, Cursors, Parameters;
    var R := T[t := T[t].(queries := [q] + T[t].queries)];
    var P := Q[q := Q[q].(trans := Some(t), reg := Some(t))];
    EnrollRegistered(T, Q, q, t);
    BatchedLike(T, R, B);
    HandlesOnLinks(L, T, aux);
    LinkedLike(L, T, R, aux);
    EnrollSameLink(T, R, Q, q, t, aux);
    TreeLike(Q, P);
    MovedFamilies(Q, q, Some(t));
    HandlesLike(Q, P, S);
    ParametersLike(T, R);
    ColumnsLike(Q, P);
    CursorsLike(Q, P);
  }

  lemma EnrollRegistered(T: map<Addr, Trans>, Q: map<Addr, Query>, q: Addr, t: Addr)
    requires Registered(T, Q) && q in Q && Q[q].trans.None? && t in T
    ensures Registered(T[t := T[t].(queries := [q] + T[t].queries)], Q[q := Q[q].(trans := Some(t), reg := Some(t))])
  {
    var R := T[t := T[t].(queries := [q] + T[t].queries)];
    var P := Q[q := Q[q].(trans := Some(t), reg := Some(t))];
    assert QueryEnrolled(T, Q[q], q);
    forall p | p in P ensures QueryEnrolled(R, P[p], p) { assert QueryEnrolled(T, Q[p], p); }
    forall u | u in R ensures RegistryOk(R[u], u, P) {
      assert RegistryOk(T[u], u, Q);
      if u == t { ConsNoDup(T[t].queries, q); }
    }
  }

  lemma EnrollSameLink(T: map<Addr, Trans>, R: map<Addr, Trans>, Q: map<Addr, Query>, q: Addr, t: Addr,
                       aux: Option<Addr>)
    requires SameLink(T, Q, aux) && q in Q && t in T && R.Keys == T.Keys && forall u :: u in T ==> SameSite(T[u], R[u])
    requires QueryOnLink(T, Q[q].(trans := Some(t)), aux)
    ensures SameLink(R, Q[q := Q[q].(trans := Some(t), reg := Some(t))], aux)
  {
    var P := Q[q := Q[q].(trans := Some(t), reg := Some(t))];
    forall p | p in P ensures QueryOnLink(R, P[p], aux) { assert QueryOnLink(T, Q[p], aux); }
  }

  lemma UnenrollKeeps(w: World, q: Addr, aux: Option<Addr>)
    requires Inv(w, aux) && q in w.queries && (w.rules.strict ==> !w.queries[q].isOpen) && MayMove(w.queries[q])
    ensures Inv(Unenroll(w, q), aux)
  {
    hide Inv, Shape, WorkOk, Tallied, QueryOnLink, Left;
    PartsOf(w, aux);
    QueryLive(w, q, aux);
    UnenrollShape(w.links, w.trans, w.queries, w.batches, w.stmts, q, aux);
    ListedOnce(w, q, aux);
    LeftWork(w.trans, w.queries[q].reg, q, w.durable, w.next);
    var Q := w.queries[q := w.queries[q].(trans := None, reg := None)];
    LeftTally(w.trans, w.queries, Q, w.queries[q].reg, q, w.rules.strict, w.wrapped);
    Rebuilt(w, Left(w.trans, w.queries[q].reg, q), Q, w.stmts, w.next, w.wrapped, aux);
  }

  lemma ListedOnce(w: World, q: Addr, aux: Option<Addr>)
    requires Inv(w, aux) && q in w.queries
    ensures forall t :: t in w.trans ==>
              NoDup(w.trans[t].queries) && (q in w.trans[t].queries ==> w.queries[q].reg == Some(t))
  {
    forall t | t in w.trans ensures NoDup(w.trans[t].queries) &&
    (q in w.trans[t].queries ==> w.queries[q].reg == Some(t)) {
      assert RegistryOk(w.trans[t], t, w.queries);
    }
  }

  lemma LeftTally(T: map<Addr, Trans>, Q: map<Addr, Query>, P: map<Addr, Query>, reg: Option<Addr>, q: Addr,
                  strict: bool, wrapped: bool)
    requires Tallied(T, Q, strict, wrapped) && (strict && reg.Some? ==> !OpenIn(Q, q))
    requires forall p :: p != q ==> OpenIn(P, p) == OpenIn(Q, p)
    requires forall t :: t in T && q in T[t].queries ==> reg == Some(t)
    requires q !in P ==> forall t :: t in T ==> NoDup(T[t].queries)
    requires q in P ==> OpenIn(P, q) == OpenIn(Q, q)
    ensures Tallied(Left(T, reg, q), P, strict, wrapped)
  {
    var R := Left(T, reg, q);
    forall u | u in R && !wrapped ensures CountOk(P, R[u], strict) {
      assert CountOk(Q, T[u], strict);
      if q in T[u].queries { OpensWithout(Q, T[u].queries, q); } else { WithoutAbsent(T[u].queries, q); }
      if q !in P { WithoutNoDup(T[u].queries, q); }
      OpensLike(Q, P, R[u].queries);
    }
  }

  lemma {:induction false} WithoutAbsent<T>(s: seq<T>, x: T)
    requires x !in s
    ensures Without(s, x) == s
  {
    if s != [] { WithoutAbsent(s[1..], x); }
  }

  lemma LeftWork(T: map<Addr, Trans>, reg: Option<Addr>, q: Addr, durable: seq<Work>, next: nat)
    requires WorkOk(T, durable, next)
    ensures WorkOk(Left(T, reg, q), durable, next)
    ensures Left(T, reg, q).Keys == T.Keys && forall t :: t in T ==> Left(T, reg, q)[t].exact == T[t].exact
  {
    hide WorkOk, Without;
    WorkLike(T, Left(T, reg, q), durable, next, next);
  }

  lemma UnenrollShape(L: map<Addr, Link>, T: map<Addr, Trans>, Q: map<Addr, Query>, B: map<Addr, Batch>, S: set<Addr>,
                      q: Addr, aux: Option<Addr>)
    requires Shape(L, T, Q, B, S, aux) && q in Q && MayMove(Q[q])
    ensures Shape(L, Left(T, Q[q].reg, q), Q[q := Q[q].(trans := None, reg := None)], B, S, aux)
  {
    hide Registered, Batched, Linked, SameLink, Tree, Families, Handles, Columns, Cursors, Parameters;
    var R := Left(T, Q[q].reg, q);
    var P := Q[q := Q[q].(trans := None, reg := None)];
    UnenrollRegistered(T, Q, q);
    BatchedLike(T, R, B);
    HandlesOnLinks(L, T, aux);
    LinkedLike(L, T, R, aux);
    SameLinkLike(T, R, Q, P, aux);
    TreeLike(Q, P);
    MovedFamilies(Q, q, None);
    HandlesLike(Q, P, S);
    ParametersLike(T, R);
    ColumnsLike(Q, P);
    CursorsLike(Q, P);
  }

  lemma UnenrollRegistered(T: map<Addr, Trans>, Q: map<Addr, Query>, q: Addr)
    requires Registered(T, Q) && q in Q
    ensures Registered(Left(T, Q[q].reg, q), Q[q := Q[q].(trans := None, reg := None)])
    ensures Registered(Left(T, Q[q].reg, q), Q - {q})
  {
    var R := Left(T, Q[q].reg, q);
    var P := Q[q := Q[q].(trans := None, reg := None)];
    assert QueryEnrolled(T, Q[q], q);
    forall p | p in P ensures QueryEnrolled(R, P[p], p) {
      assert QueryEnrolled(T, Q[p], p);
      if Q[q].reg.Some? { WithoutIn(T[Q[q].reg.value].queries, q, p); }
    }
    forall u | u in R ensures RegistryOk(R[u], u, P) && RegistryOk(R[u], u, Q - {q}) {
      LeftRegistry(T, Q, q, u);
    }
    forall p | p in Q - {q} ensures QueryEnrolled(R, (Q - {q})[p], p) { assert QueryEnrolled(R, P[p], p); }
  }

  lemma LeftRegistry(T: map<Addr, Trans>, Q: map<Addr, Query>, q: Addr, u: Addr)
    requires Registered(T, Q) && q in Q && u in T
    ensures NoDup(Left(T, Q[q].reg, q)[u].queries)
    ensures forall p :: p in Left(T, Q[q].reg, q)[u].queries ==> p != q && p in Q && Q[p].reg == Some(u)
  {
    assert RegistryOk(T[u], u, Q) && QueryEnrolled(T, Q[q], q);
    if Q[q].reg == Some(u) {
      WithoutNoDup(T[u].queries, q);
      forall p | p in Without(T[u].queries, q) ensures p in T[u].queries { WithoutIn(T[u].queries, q, p); }
    }
  }

  // ------------------------------------------------------------ queries

  /** A new query is a fresh root without a statement, or a child that holds its parent's handle. */
  ghost predicate Newborn(w: World, qq: Query) {
    && qq.children == [] && qq.sqld == qq.columns <= MAX_COLUMNS && !qq.isOpen
    && (match qq.parent
        case None => qq.stmt.None?
        case Some(p) => p in w.queries && !qq.owns && qq.stmt.Some? && w.queries[p].stmt == qq.stmt)
  }

  /** The parent of a new result, if any, is of the same transaction where that is the caller's. */
  predicate Related(Q: map<Addr, Query>, qq: Query, t: Addr) {
    qq.parent.Some? && qq.parent.value in Q ==>
      var pp := Q[qq.parent.value];
      qq.explicit == pp.explicit && (qq.explicit ==> pp.trans == Some(t))
  }

  lemma NewQueryKeeps(w: World, t: Addr, qq: Query, aux: Option<Addr>)
    requires Inv(w, aux) && Newborn(w, qq) && Related(w.queries, qq, t) && Fits(w, qq.link, qq.explicit, t, aux)
    ensures Inv(NewQuery(w, t, qq), aux)
  {
    hide Inv, Shape, WorkOk, Tallied, Adopted;
    PartsOf(w, aux);
    FreshAddress(w, aux);
    AdoptedKeys(w.queries, w.next, qq.(trans := Some(t), reg := Some(t)));
    var T := w.trans[t := w.trans[t].(queries := [w.next] + w.trans[t].queries)];
    NewQueryShape(w.links, w.trans, w.queries, w.batches, w.stmts, w.next, t, qq, aux);
    WorkLike(w.trans, T, w.durable, w.next, w.next + 1);
    BornTally(w.trans, w.queries, w.next, t, qq.(trans := Some(t), reg := Some(t)), w.rules.strict, w.wrapped);
    Rebuilt(w, T, Adopted(w.queries, w.next, qq.(trans := Some(t), reg := Some(t))), w.stmts, w.next + 1, w.wrapped,
            aux);
  }

  lemma BornTally(T: map<Addr, Trans>, Q: map<Addr, Query>, q: Addr, t: Addr, qq: Query, strict: bool, wrapped: bool)
    requires Tallied(T, Q, strict, wrapped) && t in T && q !in Q && !qq.isOpen
    ensures Tallied(T[t := T[t].(queries := [q] + T[t].queries)], Adopted(Q, q, qq), strict, wrapped)
  {
    var (R, P) := (T[t := T[t].(queries := [q] + T[t].queries)], Adopted(Q, q, qq));
    forall u | u in R && !wrapped ensures CountOk(P, R[u], strict) {
      assert CountOk(Q, T[u], strict);
      OpensLike(Q, P, R[u].queries);
      assert u == t ==> R[t].queries[1..] == T[t].queries;
    }
  }

  lemma AdoptedKeys(Q: map<Addr, Query>, q: Addr, qq: Query)
    ensures Adopted(Q, q, qq).Keys == Q.Keys + {q}
  {}

  lemma NewQueryShape(L: map<Addr, Link>, T: map<Addr, Trans>, Q: map<Addr, Query>, B: map<Addr, Batch>, S: set<Addr>,
                      q: Addr, t: Addr, qq: Query, aux: Option<Addr>)
    requires Shape(L, T, Q, B, S, aux) && q !in Q && t in T && (forall p :: p in Q ==> p < q)
    requires QueryOnLink(T, qq.(trans := Some(t)), aux)
    requires qq.children == [] && qq.sqld == qq.columns <= MAX_COLUMNS && !qq.isOpen
    requires if qq.parent.Some? then qq.parent.value in Q && !qq.owns && qq.stmt.Some? &&
             Q[qq.parent.value].stmt == qq.stmt else qq.stmt.None?
    requires Related(Q, qq, t)
    ensures Shape(L, T[t := T[t].(queries := [q] + T[t].queries)], Adopted(Q, q, qq.(trans := Some(t), reg := Some(t))),
                  B, S, aux)
  {
    hide Registered, Batched, Linked, SameLink, Tree, Families, Handles, Columns, Cursors, Parameters;
    var R := T[t := T[t].(queries := [q] + T[t].queries)];
    var born := qq.(trans := Some(t), reg := Some(t));
    BornEnrolled(T, Q, q, t, qq, aux);
    BatchedLike(T, R, B);
    HandlesOnLinks(L, T, aux);
    LinkedLike(L, T, R, aux);
    ParametersLike(T, R);
    BornHandles(Q, q, born, S);
    BornTree(Q, q, born);
    BornFamilies(Q, q, born, t);
    BornColumns(Q, q, born);
    if qq.parent.Some? {
      var Q1, P := Q[q := born], Adopted(Q, q, born);
      RegisteredQ(R, Q1, qq.parent.value, P[qq.parent.value]);
      SameLinkLike(R, R, Q1, P, aux);
      HandlesLike(Q1, P, S);
      ColumnsLike(Q1, P);
      CursorsLike(Q1, P);
    }
  }

  /** The new struct first stands alone, then joins the registry. */
  lemma BornEnrolled(T: map<Addr, Trans>, Q: map<Addr, Query>, q: Addr, t: Addr, qq: Query, aux: Option<Addr>)
    requires Registered(T, Q) && SameLink(T, Q, aux) && q !in Q && t in T && QueryOnLink(T, qq.(trans := Some(t)), aux)
    ensures Registered(T[t := T[t].(queries := [q] + T[t].queries)], Q[q := qq.(trans := Some(t), reg := Some(t))])
    ensures SameLink(T[t := T[t].(queries := [q] + T[t].queries)], Q[q := qq.(trans := Some(t), reg := Some(t))], aux)
  {
    hide Registered, SameLink;
    var alone := qq.(trans := None, reg := None);
    var Q0 := Q[q := alone];
    BornRegistered(T, Q, q, alone);
    EnrollRegistered(T, Q0, q, t);
    BornSameLink(T, Q, q, alone, aux);
    EnrollSameLink(T, T[t := T[t].(queries := [q] + T[t].queries)], Q0, q, t, aux);
    UpdateTwice(Q, q, alone, qq.(trans := Some(t), reg := Some(t)));
  }

  lemma BornColumns(Q: map<Addr, Query>, q: Addr, qq: Query)
    requires Columns(Q) && Cursors(Q) && qq.sqld == qq.columns <= MAX_COLUMNS && !qq.isOpen
    ensures Columns(Q[q := qq]) && Cursors(Q[q := qq])
  {}

  lemma BornRegistered(T: map<Addr, Trans>, Q: map<Addr, Query>, q: Addr, qq: Query)
    requires Registered(T, Q) && q !in Q && qq.trans.None? && qq.reg.None?
    ensures Registered(T, Q[q := qq])
  {
    var P := Q[q := qq];
    forall p | p in P ensures QueryEnrolled(T, P[p], p) { if p != q { assert QueryEnrolled(T, Q[p], p); } }
    forall u | u in T ensures RegistryOk(T[u], u, P) { assert RegistryOk(T[u], u, Q); }
  }

  lemma BornSameLink(T: map<Addr, Trans>, Q: map<Addr, Query>, q: Addr, qq: Query, aux: Option<Addr>)
    requires SameLink(T, Q, aux) && qq.trans.None?
    ensures SameLink(T, Q[q := qq], aux)
  {
    var P := Q[q := qq];
    forall p | p in P ensures QueryOnLink(T, P[p], aux) { if p != q { assert QueryOnLink(T, Q[p], aux); } }
  }

  lemma BornHandles(Q: map<Addr, Query>, q: Addr, qq: Query, S: set<Addr>)
    requires Handles(Q, S) && q !in Q
    requires qq.stmt.Some? ==> !qq.owns && qq.parent.Some? && qq.parent.value in Q && Q[qq.parent.value].stmt == qq.stmt
    ensures Handles(Q[q := qq], S)
  {
    var R := Q[q := qq];
    forall p | p in R ensures HoldsLive(R[p], S) {
      if p != q { assert HoldsLive(Q[p], S); }
      else if qq.stmt.Some? { assert HoldsLive(Q[qq.parent.value], S); }
    }
    forall s | s in S ensures Owned(R, s) {
      assert Owned(Q, s);
      var p :| Owner(Q, p, s);
      assert Owner(R, p, s);
    }
    forall a, b, s | Owner(R, a, s) && Owner(R, b, s) ensures a == b { assert Owner(Q, a, s) && Owner(Q, b, s); }
  }

  lemma BornTree(Q: map<Addr, Query>, q: Addr, qq: Query)
    requires Tree(Q) && q !in Q && qq.children == [] && forall p :: p in Q ==> p < q
    requires qq.parent.Some? ==> qq.parent.value in Q && !qq.owns && qq.stmt.Some? && Q[qq.parent.value].stmt == qq.stmt
    ensures Tree(Adopted(Q, q, qq))
  {
    var R := Adopted(Q, q, qq);
    forall p | p in R ensures ChildrenOk(R, R[p], p) && ParentOk(R, R[p], p) {
      if p != q {
        assert ChildrenOk(Q, Q[p], p) && ParentOk(Q, Q[p], p);
        if qq.parent == Some(p) { ConsNoDup(Q[p].children, q); }
      }
    }
  }

  lemma BornFamilies(Q: map<Addr, Query>, q: Addr, qq: Query, t: Addr)
    requires Tree(Q) && Families(Q) && q !in Q && qq.trans == Some(t) && Related(Q, qq, t)
    ensures Families(Adopted(Q, q, qq))
  {
    var R := Adopted(Q, q, qq);
    forall p | p in R ensures InFamily(R, R[p]) { if p != q { assert InFamily(Q, Q[p]) && ParentOk(Q, Q[p], p); } }
  }

  lemma AttachKeeps(w: World, q: Addr, aux: Option<Addr>)
    requires Inv(w, aux) && q in w.queries
    requires w.queries[q].stmt.None? && w.queries[q].owns && w.queries[q].parent.None? && !w.queries[q].isOpen
    ensures Inv(AttachStmt(w, q), aux)
  {
    hide Inv, Shape, WorkOk, Tallied;
    PartsOf(w, aux);
    FreshAddress(w, aux);
    var Q := w.queries[q := w.queries[q].(stmt := Some(w.next))];
    AttachShape(w.links, w.trans, w.queries, w.batches, w.stmts, q, w.next, aux);
    WorkLike(w.trans, w.trans, w.durable, w.next, w.next + 1);
    TalliedLike(w.trans, w.trans, w.queries, Q, w.rules.strict, w.wrapped);
    Rebuilt(w, w.trans, Q, w.stmts + {w.next}, w.next + 1, w.wrapped, aux);
  }

  lemma AttachShape(L: map<Addr, Link>, T: map<Addr, Trans>, Q: map<Addr, Query>, B: map<Addr, Batch>, S: set<Addr>,
                    q: Addr, s: Addr, aux: Option<Addr>)
    requires Shape(L, T, Q, B, S, aux) && q in Q && s !in S
    requires Q[q].stmt.None? && Q[q].owns && Q[q].parent.None? && !Q[q].isOpen
    ensures Shape(L, T, Q[q := Q[q].(stmt := Some(s))], B, S + {s}, aux)
  {
    hide Registered, Batched, Linked, SameLink, Tree, Families, Handles, Columns, Cursors, Parameters;
    var P := Q[q := Q[q].(stmt := Some(s))];
    RegisteredQ(T, Q, q, P[q]);
    SameLinkLike(T, T, Q, P, aux);
    AttachTree(Q, q, s);
    FamiliesLike(Q, P);
    AttachHandles(Q, q, s, S);
    ColumnsLike(Q, P);
    AttachCursors(Q, q, s);
  }

  lemma FreshAddress(w: World, aux: Option<Addr>)
    requires Inv(w, aux)
    ensures w.next !in w.links && w.next !in w.trans && w.next !in w.queries && w.next !in w.batches &&
            w.next !in w.stmts
    ensures forall q :: q in w.queries ==> q < w.next
  {}

  lemma AttachCursors(Q: map<Addr, Query>, q: Addr, s: Addr)
    requires Cursors(Q) && q in Q && !Q[q].isOpen
    ensures Cursors(Q[q := Q[q].(stmt := Some(s))])
  {}

  lemma AttachTree(Q: map<Addr, Query>, q: Addr, s: Addr)
    requires Tree(Q) && q in Q && Q[q].stmt.None?
    ensures Tree(Q[q := Q[q].(stmt := Some(s))])
  {
    var R := Q[q := Q[q].(stmt := Some(s))];
    forall p | p in R ensures ChildrenOk(R, R[p], p) && ParentOk(R, R[p], p) {
      assert ChildrenOk(Q, Q[p], p) && ParentOk(Q, Q[p], p);
    }
  }

  lemma AttachHandles(Q: map<Addr, Query>, q: Addr, s: Addr, S: set<Addr>)
    requires Handles(Q, S) && q in Q && Q[q].stmt.None? && Q[q].owns && s !in S
    ensures Handles(Q[q := Q[q].(stmt := Some(s))], S + {s})
  {
    var R := Q[q := Q[q].(stmt := Some(s))];
    forall p | p in R ensures HoldsLive(R[p], S + {s}) { assert HoldsLive(Q[p], S); }
    forall z | z in S + {s} ensures Owned(R, z) {
      if z == s { assert Owner(R, q, s); }
      else {
        assert Owned(Q, z);
        var p :| Owner(Q, p, z);
        assert Owner(R, p, z);
      }
    }
    forall a, b, z | Owner(R, a, z) && Owner(R, b, z) ensures a == b {
      assert HoldsLive(Q[a], S) && HoldsLive(Q[b], S);
      if z != s { assert Owner(Q, a, z) && Owner(Q, b, z); }
    }
  }

  /** Every holder of a handle is its owner or hangs below it: with no children left, the owner is alone. */
  lemma {:induction false} SoleHolder(Q: map<Addr, Query>, S: set<Addr>, q: Addr, s: Addr, x: Addr)
    requires Tree(Q) && Handles(Q, S) && Owner(Q, q, s) && Q[q].children == []
    requires x in Q && Q[x].stmt == Some(s)
    ensures x == q
    decreases x
  {
    if x != q {
      assert !Owner(Q, x, s);
      assert HoldsLive(Q[x], S) && ParentOk(Q, Q[x], x);
      var p := Q[x].parent.value;
      assert ChildrenOk(Q, Q[p], p);
      SoleHolder(Q, S, q, s, p);
    }
  }

  lemma DropKeeps(w: World, q: Addr, aux: Option<Addr>)
    requires Inv(w, aux) && q in w.queries && w.queries[q].children == []
    ensures Inv(DropStmt(w, q), aux)
  {
    hide Inv, Shape, WorkOk, Tallied, QueryOnLink;
    PartsOf(w, aux);
    QueryLive(w, q, aux);
    if w.queries[q].stmt.Some? && w.queries[q].owns {
      var (s, Q) := (w.queries[q].stmt.value, w.queries[q := w.queries[q].(stmt := None, owns := false)]);
      DropShape(w.links, w.trans, w.queries, w.batches, w.stmts, q, s, aux);
      TalliedLike(w.trans, w.trans, w.queries, Q, w.rules.strict, w.wrapped);
      Rebuilt(w, w.trans, Q, w.stmts - {s}, w.next, w.wrapped, aux);
    }
  }

  lemma DropShape(L: map<Addr, Link>, T: map<Addr, Trans>, Q: map<Addr, Query>, B: map<Addr, Batch>, S: set<Addr>,
                  q: Addr, s: Addr, aux: Option<Addr>)
    requires Shape(L, T, Q, B, S, aux) && Owner(Q, q, s) && Q[q].children == []
    ensures Shape(L, T, Q[q := Q[q].(stmt := None, owns := false)], B, S - {s}, aux)
  {
    hide Registered, Batched, Linked, SameLink, Tree, Families, Handles, Columns, Cursors, Parameters;
    var P := Q[q := Q[q].(stmt := None, owns := false)];
    RegisteredQ(T, Q, q, P[q]);
    SameLinkLike(T, T, Q, P, aux);
    DropTree(Q, q);
    FamiliesLike(Q, P);
    DropHandles(Q, q, s, S);
    ColumnsLike(Q, P);
    CursorsLike(Q, P);
  }

  lemma DropTree(Q: map<Addr, Query>, q: Addr)
    requires Tree(Q) && q in Q && Q[q].children == [] && Q[q].owns
    ensures Tree(Q[q := Q[q].(stmt := None, owns := false)])
  {
    var R := Q[q := Q[q].(stmt := None, owns := false)];
    forall p | p in R ensures ChildrenOk(R, R[p], p) && ParentOk(R, R[p], p) {
      assert ChildrenOk(Q, Q[p], p) && ParentOk(Q, Q[p], p);
    }
  }

  lemma DropHandles(Q: map<Addr, Query>, q: Addr, s: Addr, S: set<Addr>)
    requires Tree(Q) && Handles(Q, S) && Owner(Q, q, s) && Q[q].children == []
    ensures Handles(Q[q := Q[q].(stmt := None, owns := false)], S - {s})
  {
    var R := Q[q := Q[q].(stmt := None, owns := false)];
    forall p | p in R ensures HoldsLive(R[p], S - {s}) {
      assert HoldsLive(Q[p], S);
      if Q[p].stmt == Some(s) { SoleHolder(Q, S, q, s, p); }
    }
    forall z | z in S - {s} ensures Owned(R, z) {
      assert Owned(Q, z);
      var p :| Owner(Q, p, z);
      assert Owner(R, p, z);
    }
    forall a, b, z | Owner(R, a, z) && Owner(R, b, z) ensures a == b { assert Owner(Q, a, z) && Owner(Q, b, z); }
  }

  lemma RemoveQueryKeeps(w: World, q: Addr, aux: Option<Addr>)
    requires Inv(w, aux) && q in w.queries && w.queries[q].children == []
    requires !(w.queries[q].owns && w.queries[q].stmt.Some?) &&
             (w.rules.strict && w.queries[q].trans.Some? ==> !w.queries[q].isOpen)
    ensures Inv(RemoveQuery(w, q), aux)
  {
    hide Inv, Shape, WorkOk, Tallied, QueryOnLink, Left, Pruned;
    PartsOf(w, aux);
    QueryLive(w, q, aux);
    RemoveShape(w.links, w.trans, w.queries, w.batches, w.stmts, q, aux);
    LeftWork(w.trans, w.queries[q].reg, q, w.durable, w.next);
    PrunedKeys(w.queries, q);
    ListedOnce(w, q, aux);
    LeftTally(w.trans, w.queries, Pruned(w.queries, q), w.queries[q].reg, q, w.rules.strict, w.wrapped);
    Rebuilt(w, Left(w.trans, w.queries[q].reg, q), Pruned(w.queries, q), w.stmts, w.next, w.wrapped, aux);
  }

  lemma PrunedKeys(Q: map<Addr, Query>, q: Addr)
    requires q in Q
    ensures Pruned(Q, q).Keys == Q.Keys - {q}
    ensures forall p :: p != q ==> OpenIn(Pruned(Q, q), p) == OpenIn(Q, p)
  {}

  lemma RemoveShape(L: map<Addr, Link>, T: map<Addr, Trans>, Q: map<Addr, Query>, B: map<Addr, Batch>, S: set<Addr>,
                    q: Addr, aux: Option<Addr>)
    requires Shape(L, T, Q, B, S, aux) && q in Q && Q[q].children == [] && !(Q[q].owns && Q[q].stmt.Some?)
    ensures Shape(L, Left(T, Q[q].reg, q), Pruned(Q, q), B, S, aux)
  {
    hide Registered, Batched, Linked, SameLink, Tree, Families, Handles, Columns, Cursors, Parameters;
    var R, P := Left(T, Q[q].reg, q), Pruned(Q, q);
    UnenrollRegistered(T, Q, q);
    BatchedLike(T, R, B);
    HandlesOnLinks(L, T, aux);
    LinkedLike(L, T, R, aux);
    SameLinkLike(T, R, Q, P, aux);
    ParametersLike(T, R);
    ColumnsLike(Q, P);
    CursorsLike(Q, P);
    RemoveTree(Q, q);
    FamiliesLike(Q, P);
    RemoveHandles(Q, q, S);
    if Q[q].parent.Some? { RemoveFromParent(R, Q, q, S); }
  }

  /** The parent's child list is the only other thing that changes. */
  lemma RemoveFromParent(R: map<Addr, Trans>, Q: map<Addr, Query>, q: Addr, S: set<Addr>)
    requires Tree(Q) && q in Q && Q[q].parent.Some? && Registered(R, Q - {q}) && Handles(Q - {q}, S)
    ensures Registered(R, Pruned(Q, q)) && Handles(Pruned(Q, q), S)
  {
    hide Registered, Handles, Tree, Families;
    var (p, P) := (Q[q].parent.value, Pruned(Q, q));
    ParentOther(Q, q);
    assert P == (Q - {q})[p := P[p]];
    RegisteredQ(R, Q - {q}, p, P[p]);
    HandlesLike(Q - {q}, P, S);
  }

  lemma ParentOther(Q: map<Addr, Query>, q: Addr)
    requires Tree(Q) && q in Q && Q[q].parent.Some?
    ensures Q[q].parent.value in Q && Q[q].parent.value < q
  {
    assert ParentOk(Q, Q[q], q);
    assert ChildrenOk(Q, Q[Q[q].parent.value], Q[q].parent.value);
  }

  lemma PrunedAt(Q: map<Addr, Query>, q: Addr, p: Addr)
    requires Tree(Q) && q in Q && p in Q && p != q
    ensures var R := Pruned(Q, q);
            p in R && R[p] == if Q[q].parent == Some(p) then Q[p].(children := Without(Q[p].children, q)) else Q[p]
  {
    hide Tree, Families;
    if Q[q].parent.Some? { ParentOther(Q, q); }
  }

  lemma RemoveChildren(Q: map<Addr, Query>, q: Addr, p: Addr)
    requires Tree(Q) && q in Q && p in Q && p != q
    ensures p in Pruned(Q, q) && ChildrenOk(Pruned(Q, q), Pruned(Q, q)[p], p)
  {
    hide Pruned, Tree, Families, Without, NoDup;
    PrunedAt(Q, q, p);
    assert ChildrenOk(Q, Q[p], p) by { TreeAt(Q, p); }
    WithoutNoDup(Q[p].children, q);
    forall c | c in Pruned(Q, q)[p].children ensures p < c && c in Pruned(Q, q) && Pruned(Q, q)[c].parent == Some(p) {
      WithoutIn(Q[p].children, q, c);
      PrunedAt(Q, q, c);
    }
  }

  lemma RemoveParent(Q: map<Addr, Query>, q: Addr, p: Addr)
    requires Tree(Q) && q in Q && p in Q && p != q && Q[q].children == []
    ensures p in Pruned(Q, q) && ParentOk(Pruned(Q, q), Pruned(Q, q)[p], p)
  {
    hide Pruned, Tree, Families, Without, NoDup;
    PrunedAt(Q, q, p);
    TreeAt(Q, p);
    if Q[p].parent.Some? {
      WithoutIn(Q[Q[p].parent.value].children, q, p);
      PrunedAt(Q, q, Q[p].parent.value);
    }
  }

  lemma TreeAt(Q: map<Addr, Query>, p: Addr)
    requires Tree(Q) && p in Q
    ensures ChildrenOk(Q, Q[p], p) && ParentOk(Q, Q[p], p)
  {}

  lemma RemoveTree(Q: map<Addr, Query>, q: Addr)
    requires Tree(Q) && q in Q && Q[q].children == []
    ensures Tree(Pruned(Q, q))
  {
    hide Pruned, ChildrenOk, ParentOk;
    var R := Pruned(Q, q);
    PrunedKeys(Q, q);
    forall p | p in R ensures ChildrenOk(R, R[p], p) && ParentOk(R, R[p], p) {
      RemoveChildren(Q, q, p);
      RemoveParent(Q, q, p);
    }
  }

  lemma RemoveHandles(Q: map<Addr, Query>, q: Addr, S: set<Addr>)
    requires Handles(Q, S) && q in Q && !(Q[q].owns && Q[q].stmt.Some?)
    ensures Handles(Q - {q}, S)
  {
    var R := Q - {q};
    forall p | p in R ensures HoldsLive(R[p], S) { assert HoldsLive(Q[p], S); }
    forall s | s in S ensures Owned(R, s) {
      assert Owned(Q, s);
      var p :| Owner(Q, p, s);
      assert Owner(R, p, s);
    }
    forall a, b, s | Owner(R, a, s) && Owner(R, b, s) ensures a == b { assert Owner(Q, a, s) && Owner(Q, b, s); }
  }

  lemma TransferKeeps(w: World, q: Addr, r: Addr, aux: Option<Addr>)
    requires Inv(w, aux) && q in w.queries && r in w.queries
    requires w.queries[q].owns && w.queries[q].children == [r] && w.queries[r].parent == Some(q)
    ensures Inv(Transfer(w, q, r), aux)
  {
    hide Inv, Shape, WorkOk, Tallied;
    PartsOf(w, aux);
    TransferShape(w.links, w.trans, w.queries, w.batches, w.stmts, q, r, aux);
    TalliedLike(w.trans, w.trans, w.queries, HandedOver(w.queries, q, r), w.rules.strict, w.wrapped);
    Rebuilt(w, w.trans, HandedOver(w.queries, q, r), w.stmts, w.next, w.wrapped, aux);
  }

  lemma TransferShape(L: map<Addr, Link>, T: map<Addr, Trans>, Q: map<Addr, Query>, B: map<Addr, Batch>, S: set<Addr>,
                      q: Addr, r: Addr, aux: Option<Addr>)
    requires Shape(L, T, Q, B, S, aux) && q in Q && r in Q && Q[q].owns && Q[q].children == [r] &&
             Q[r].parent == Some(q)
    ensures Shape(L, T, HandedOver(Q, q, r), B, S, aux)
  {
    hide Registered, Batched, Linked, SameLink, Tree, Families, Handles, Columns, Cursors, Parameters;
    var P := HandedOver(Q, q, r);
    ParentOther(Q, r);
    RegisteredQ(T, Q, r, P[r]);
    RegisteredQ(T, Q[r := P[r]], q, P[q]);
    SameLinkLike(T, T, Q, P, aux);
    TransferTree(Q, q, r);
    FamiliesLike(Q, P);
    TransferHandles(Q, q, r, S);
    ColumnsLike(Q, P);
    CursorsLike(Q, P);
  }

  lemma TransferTree(Q: map<Addr, Query>, q: Addr, r: Addr)
    requires Tree(Q) && q in Q && r in Q && Q[q].owns && Q[q].children == [r] && Q[r].parent == Some(q) && q != r
    ensures Tree(HandedOver(Q, q, r))
  {
    var R := HandedOver(Q, q, r);
    assert ParentOk(Q, Q[q], q);
    forall p | p in R ensures ChildrenOk(R, R[p], p) && ParentOk(R, R[p], p) {
      assert ChildrenOk(Q, Q[p], p) && ParentOk(Q, Q[p], p);
      assert r in Q[p].children ==> p == q;
      assert Q[p].parent == Some(q) ==> p == r;
    }
  }

  lemma TransferHandles(Q: map<Addr, Query>, q: Addr, r: Addr, S: set<Addr>)
    requires Tree(Q) && Handles(Q, S) && q in Q && r in Q && Q[q].owns && Q[r].parent == Some(q) && q != r
    ensures Handles(HandedOver(Q, q, r), S)
  {
    var R := HandedOver(Q, q, r);
    assert ParentOk(Q, Q[r], r);
    var s := Q[q].stmt.value;
    assert Owner(Q, q, s) && Owner(R, r, s);
    forall p | p in R ensures HoldsLive(R[p], S) { assert HoldsLive(Q[p], S); }
    forall z | z in S ensures Owned(R, z) {
      assert Owned(Q, z);
      var p :| Owner(Q, p, z);
      if z == s { assert Owner(R, r, z); } else { assert Owner(R, p, z); }
    }
    forall a, b, z | Owner(R, a, z) && Owner(R, b, z) ensures a == b {
      assert Owner(Q, if a == r then q else a, z) && Owner(Q, if b == r then q else b, z);
    }
  }
}
