/** What every step keeps, one predicate for each part of the memory, and the World-to-World changes that
    keep it. `aux` names the transaction that fbird_execute_auto holds outside every tr_list, if any. */
module Invariant {
  import opened State

  // ------------------------------------------------------------ the parts

  ghost predicate QueryEnrolled(T: map<Addr, Trans>, qq: Query, q: Addr) {
    qq.trans == qq.reg && (qq.reg.Some? ==> qq.reg.value in T && q in T[qq.reg.value].queries)
  }

  ghost predicate RegistryOk(tr: Trans, t: Addr, Q: map<Addr, Query>) {
    NoDup(tr.queries) && forall q :: q in tr.queries ==> q in Q && Q[q].reg == Some(t)
  }

  /** Each query registry lists, once each, exactly the live queries that point to that transaction. */
  ghost predicate Registered(T: map<Addr, Trans>, Q: map<Addr, Query>) {
    && (forall q :: q in Q ==> QueryEnrolled(T, Q[q], q))
    && (forall t :: t in T ==> RegistryOk(T[t], t, Q))
  }

  ghost predicate BatchEnrolled(T: map<Addr, Trans>, bb: Batch, b: Addr) {
    bb.trans == bb.reg && (bb.reg.Some? ==> bb.reg.value in T && b in T[bb.reg.value].batches)
  }

  ghost predicate BatchRegistryOk(tr: Trans, t: Addr, B: map<Addr, Batch>) {
    NoDup(tr.batches) && forall b :: b in tr.batches ==> b in B && B[b].reg == Some(t)
  }

  ghost predicate Batched(T: map<Addr, Trans>, B: map<Addr, Batch>) {
    && (forall b :: b in B ==> BatchEnrolled(T, B[b], b))
    && (forall t :: t in T ==> BatchRegistryOk(T[t], t, B))
  }

  ghost predicate TransOnLink(L: map<Addr, Link>, tr: Trans, t: Addr, aux: Option<Addr>) {
    && (tr.handle.Some? || tr.isDefault || aux == Some(t) ==> tr.link.Some?)
    && (tr.isDefault ==> tr.exact && aux != Some(t))
    && (tr.link.Some? ==> tr.link.value in L && (aux == Some(t) || Some(t) in L[tr.link.value].trs))
  }

  ghost predicate ListOk(ll: Link, l: Addr, T: map<Addr, Trans>, aux: Option<Addr>) {
    && (forall i, j :: 0 <= i < j < |ll.trs| && ll.trs[i].Some? ==> ll.trs[i] != ll.trs[j])
    && (forall n :: n in ll.trs && n.Some? ==> n.value in T && T[n.value].link == Some(l) && aux != n)
  }

  ghost predicate OneDefault(T: map<Addr, Trans>) {
    forall t, u :: t in T && u in T && T[t].isDefault && T[u].isDefault && T[t].link == T[u].link ==> t == u
  }

  /** Each tr_list lists, once each, the live transactions on that link, at most one of them default. */
  ghost predicate Linked(L: map<Addr, Link>, T: map<Addr, Trans>, aux: Option<Addr>) {
    && (forall t :: t in T ==> TransOnLink(L, T[t], t, aux))
    && (forall l :: l in L ==> ListOk(L[l], l, T, aux))
    && OneDefault(T)
  }

  ghost predicate QueryOnLink(T: map<Addr, Trans>, qq: Query, aux: Option<Addr>) {
    qq.trans.Some? && qq.trans.value in T ==>
      var tr := T[qq.trans.value];
      && (tr.link.Some? && !qq.explicit ==> tr.link.value == qq.link)
      && (tr.isDefault ==> !qq.explicit)
      && (!qq.explicit ==> tr.isDefault || aux == qq.trans)
  }

  /** Queries without trans_res use the default transaction of their link; one that names a transaction may name
      another link as well. */
  ghost predicate SameLink(T: map<Addr, Trans>, Q: map<Addr, Query>, aux: Option<Addr>) {
    forall q :: q in Q ==> QueryOnLink(T, Q[q], aux)
  }

  ghost predicate ChildrenOk(Q: map<Addr, Query>, qq: Query, q: Addr) {
    NoDup(qq.children) && forall c :: c in qq.children ==> q < c && c in Q && Q[c].parent == Some(q)
  }

  ghost predicate ParentOk(Q: map<Addr, Query>, qq: Query, q: Addr) {
    qq.parent.Some? ==>
      && qq.parent.value in Q && q in Q[qq.parent.value].children
      && !qq.owns && qq.stmt.Some? && Q[qq.parent.value].stmt == qq.stmt
  }

  /** Parent and child pointers mirror each other, and a child holds its parent's statement handle. */
  ghost predicate Tree(Q: map<Addr, Query>) {
    forall q :: q in Q ==> ChildrenOk(Q, Q[q], q) && ParentOk(Q, Q[q], q)
  }

  ghost predicate InFamily(Q: map<Addr, Query>, qq: Query) {
    qq.parent.Some? && qq.parent.value in Q ==>
      var pp := Q[qq.parent.value];
      qq.explicit == pp.explicit && (qq.explicit ==> qq.trans == pp.trans)
  }

  /** A result names a transaction of the caller's when its statement does, and then the same one. */
  ghost predicate Families(Q: map<Addr, Query>) { forall q :: q in Q ==> InFamily(Q, Q[q]) }

  ghost predicate HoldsLive(qq: Query, S: set<Addr>) {
    qq.stmt.Some? ==> qq.stmt.value in S && (qq.owns || qq.parent.Some?)
  }

  ghost predicate Owner(Q: map<Addr, Query>, q: Addr, s: Addr) { q in Q && Q[q].owns && Q[q].stmt == Some(s) }

  ghost predicate Owned(Q: map<Addr, Query>, s: Addr) { exists q :: Owner(Q, q, s) }

  /** Held handles are live, every live handle has an owner, and only one. */
  ghost predicate Handles(Q: map<Addr, Query>, S: set<Addr>) {
    && (forall q :: q in Q ==> HoldsLive(Q[q], S))
    && (forall s :: s in S ==> Owned(Q, s))
    && (forall p, q, s :: Owner(Q, p, s) && Owner(Q, q, s) ==> p == q)
  }

  /** Only a SELECT leaves a cursor open on a statement handle. */
  ghost predicate Cursors(Q: map<Addr, Query>) {
    forall q :: q in Q ==> (Q[q].isOpen && Q[q].stmt.Some? ==> Q[q].kind.Select?)
  }

  ghost predicate OpenIn(Q: map<Addr, Query>, q: Addr) { q in Q && Q[q].isOpen }

  /** How many queries of a registry have is_open set. */
  ghost function Opens(Q: map<Addr, Query>, s: seq<Addr>): nat {
    if s == [] then 0 else (if OpenIn(Q, s[0]) then 1 else 0) + Opens(Q, s[1..])
  }

  ghost predicate CountOk(Q: map<Addr, Query>, tr: Trans, strict: bool) {
    Opens(Q, tr.queries) <= tr.count < COUNTER_LIMIT && (strict ==> tr.count == Opens(Q, tr.queries))
  }

  /** Until a counter wraps around, each is at least the number of open queries enrolled on its
      transaction, and exactly that number in a strict run. */
  ghost predicate Tallied(T: map<Addr, Trans>, Q: map<Addr, Query>, strict: bool, wrapped: bool) {
    wrapped || forall t :: t in T ==> CountOk(Q, T[t], strict)
  }

  ghost predicate Columns(Q: map<Addr, Query>) {
    forall q :: q in Q ==> Q[q].sqld == Q[q].columns <= MAX_COLUMNS
  }

  /** A live handle was started with the stored block, unless it is the first handle of a transaction made
      by fbird_trans with other bytes stored. */
  ghost predicate Parameters(T: map<Addr, Trans>) {
    forall t :: t in T && T[t].exact && T[t].handle.Some? ==> T[t].handle.value.tpb == T[t].tpb
  }

  /** A faithful transaction stores the block it was first started with. */
  ghost predicate Exactly(T: map<Addr, Trans>, faithful: set<Addr>) {
    forall t :: t in T && t in faithful ==> T[t].exact
  }

  ghost function Pending(T: map<Addr, Trans>, t: Addr): seq<Work> {
    if t in T && T[t].handle.Some? then T[t].handle.value.pending else []
  }

  ghost predicate Apart(a: seq<Work>, b: seq<Work>) { forall x :: x in a ==> x !in b }

  ghost predicate Numbered(a: seq<Work>, next: nat) { NoDup(a) && forall x :: x in a ==> x < next }

  /** Work is in one place at most: pending in one transaction, or durable once. */
  ghost predicate WorkOk(T: map<Addr, Trans>, durable: seq<Work>, next: nat) {
    && Numbered(durable, next)
    && (forall t :: t in T ==> Numbered(Pending(T, t), next) && Apart(Pending(T, t), durable))
    && (forall t, u :: t in T && u in T && t != u ==> Apart(Pending(T, t), Pending(T, u)))
  }

  ghost predicate Below(keys: set<Addr>, next: nat) { forall x :: x in keys ==> x < next }

  ghost predicate Addresses(L: set<Addr>, T: set<Addr>, Q: set<Addr>, B: set<Addr>, S: set<Addr>, next: nat) {
    Below(L, next) && Below(T, next) && Below(Q, next) && Below(B, next) && Below(S, next)
  }

  /** Everything that says which struct points where. */
  ghost predicate Shape(L: map<Addr, Link>, T: map<Addr, Trans>, Q: map<Addr, Query>, B: map<Addr, Batch>, S: set<Addr>,
                        aux: Option<Addr>) {
    && Registered(T, Q)
    && Batched(T, B)
    && Linked(L, T, aux)
    && SameLink(T, Q, aux)
    && Tree(Q)
    && Families(Q)
    && Handles(Q, S)
    && Columns(Q)
    && Cursors(Q)
    && Parameters(T)
  }

  ghost predicate Inv(w: World, aux: Option<Addr>) {
    && !w.fault
    && Shape(w.links, w.trans, w.queries, w.batches, w.stmts, aux)
    && Tallied(w.trans, w.queries, w.rules.strict, w.wrapped)
    && WorkOk(w.trans, w.durable, w.next)
    && Exactly(w.trans, w.rules.faithful)
    && Addresses(w.links.Keys, w.trans.Keys, w.queries.Keys, w.batches.Keys, w.stmts, w.next)
  }

  // ------------------------------------------------------------ congruence, part by part

  lemma BatchedLike(T: map<Addr, Trans>, R: map<Addr, Trans>, B: map<Addr, Batch>)
    requires Batched(T, B) && R.Keys == T.Keys && forall u :: u in T ==> R[u].batches == T[u].batches
    ensures Batched(R, B)
  {
    forall b | b in B ensures BatchEnrolled(R, B[b], b) { assert BatchEnrolled(T, B[b], b); }
    forall u | u in R ensures BatchRegistryOk(R[u], u, B) { assert BatchRegistryOk(T[u], u, B); }
  }

  lemma LinkedLike(L: map<Addr, Link>, T: map<Addr, Trans>, R: map<Addr, Trans>, aux: Option<Addr>)
    requires Linked(L, T, aux) && R.Keys == T.Keys
    requires forall u :: u in T ==> SameSite(T[u], R[u]) && (R[u].handle.Some? ==> R[u].link.Some?)
    ensures Linked(L, R, aux)
  {
    forall u | u in R ensures TransOnLink(L, R[u], u, aux) { assert TransOnLink(L, T[u], u, aux); }
    forall l | l in L ensures ListOk(L[l], l, R, aux) { assert ListOk(L[l], l, T, aux); }
  }

  lemma SameLinkLike(T: map<Addr, Trans>, R: map<Addr, Trans>, Q: map<Addr, Query>, P: map<Addr, Query>,
                     aux: Option<Addr>)
    requires SameLink(T, Q, aux) && R.Keys <= T.Keys && P.Keys <= Q.Keys
    requires forall u :: u in R ==> SameSite(T[u], R[u])
    requires forall p :: p in P ==>
               P[p].trans.None? || (P[p].trans == Q[p].trans && P[p].link == Q[p].link &&
                   P[p].explicit == Q[p].explicit)
    ensures SameLink(R, P, aux)
  {
    forall p | p in P ensures QueryOnLink(R, P[p], aux) { assert QueryOnLink(T, Q[p], aux); }
  }

  lemma TreeLike(Q: map<Addr, Query>, P: map<Addr, Query>)
    requires Tree(Q) && P.Keys == Q.Keys
    requires forall p :: p in P ==>
               P[p].stmt == Q[p].stmt && P[p].owns == Q[p].owns && P[p].parent == Q[p].parent &&
               P[p].children == Q[p].children
    ensures Tree(P)
  {
    forall p | p in P ensures ChildrenOk(P, P[p], p) && ParentOk(P, P[p], p) {
      assert ChildrenOk(Q, Q[p], p) && ParentOk(Q, Q[p], p);
    }
  }

  lemma FamiliesLike(Q: map<Addr, Query>, P: map<Addr, Query>)
    requires Families(Q) && P.Keys <= Q.Keys
    requires forall p :: p in P ==>
               P[p].explicit == Q[p].explicit && P[p].trans == Q[p].trans &&
               (P[p].parent == Q[p].parent || P[p].parent.None?)
    ensures Families(P)
  {
    forall p | p in P ensures InFamily(P, P[p]) { assert InFamily(Q, Q[p]); }
  }

  /** Handle ownership only depends on who holds and owns what. */
  lemma HandlesLike(Q: map<Addr, Query>, R: map<Addr, Query>, S: set<Addr>)
    requires Handles(Q, S) && R.Keys == Q.Keys
    requires forall q :: q in Q ==> R[q].stmt == Q[q].stmt && R[q].owns == Q[q].owns && R[q].parent == Q[q].parent
    ensures Handles(R, S)
  {
    forall q | q in R ensures HoldsLive(R[q], S) { assert HoldsLive(Q[q], S); }
    forall s | s in S ensures Owned(R, s) {
      assert Owned(Q, s);
      var q :| Owner(Q, q, s);
      assert Owner(R, q, s);
    }
    forall p, q, s | Owner(R, p, s) && Owner(R, q, s) ensures p == q { assert Owner(Q, p, s) && Owner(Q, q, s); }
  }

  lemma WorkLike(T: map<Addr, Trans>, R: map<Addr, Trans>, durable: seq<Work>, next: nat, next': nat)
    requires WorkOk(T, durable, next) && R.Keys <= T.Keys && (forall u :: u in R ==> Pending(R, u) == Pending(T, u)) &&
             next <= next'
    ensures WorkOk(R, durable, next')
  {
    forall u | u in R ensures Numbered(Pending(R, u), next') && Apart(Pending(R, u), durable) {
      assert Numbered(Pending(T, u), next) && Apart(Pending(T, u), durable);
    }
    forall u, v | u in R && v in R && u != v ensures Apart(Pending(R, u), Pending(R, v)) {
      assert Apart(Pending(T, u), Pending(T, v));
    }
  }

  lemma ParametersLike(T: map<Addr, Trans>, R: map<Addr, Trans>)
    requires Parameters(T) && R.Keys <= T.Keys
    requires forall u :: u in R ==> R[u].exact == T[u].exact && R[u].handle == T[u].handle && R[u].tpb == T[u].tpb
    ensures Parameters(R)
  {}

  lemma ColumnsLike(Q: map<Addr, Query>, P: map<Addr, Query>)
    requires Columns(Q) && P.Keys <= Q.Keys
    requires forall p :: p in P ==> P[p].sqld == Q[p].sqld && P[p].columns == Q[p].columns
    ensures Columns(P)
  {}

  lemma CursorsLike(Q: map<Addr, Query>, P: map<Addr, Query>)
    requires Cursors(Q) && P.Keys <= Q.Keys
    requires forall p :: p in P ==>
               P[p].isOpen == Q[p].isOpen && P[p].kind == Q[p].kind && (P[p].stmt == Q[p].stmt || P[p].stmt.None?)
    ensures Cursors(P)
  {}

  lemma {:induction false} OpensLike(Q: map<Addr, Query>, P: map<Addr, Query>, s: seq<Addr>)
    requires forall q :: q in s ==> OpenIn(P, q) == OpenIn(Q, q)
    ensures Opens(P, s) == Opens(Q, s)
  {
    if s != [] { OpensLike(Q, P, s[1..]); }
  }

  lemma TalliedLike(T: map<Addr, Trans>, R: map<Addr, Trans>, Q: map<Addr, Query>, P: map<Addr, Query>, strict: bool,
                    wrapped: bool)
    requires Tallied(T, Q, strict, wrapped) && R.Keys <= T.Keys
    requires forall u :: u in R ==> R[u].queries == T[u].queries && R[u].count == T[u].count
    requires forall q :: OpenIn(P, q) == OpenIn(Q, q)
    ensures Tallied(R, P, strict, wrapped)
  {
    forall u | u in R && !wrapped ensures CountOk(P, R[u], strict) {
      assert CountOk(Q, T[u], strict);
      OpensLike(Q, P, R[u].queries);
    }
  }

  /** A new transaction starts with nothing open and a counter of 0. */
  lemma TalliedWith(T: map<Addr, Trans>, Q: map<Addr, Query>, t: Addr, tr: Trans, strict: bool, wrapped: bool)
    requires Tallied(T, Q, strict, wrapped) && tr.queries == [] && tr.count == 0
    ensures Tallied(T[t := tr], Q, strict, wrapped)
  {
    var R := T[t := tr];
    forall u | u in R && !wrapped ensures CountOk(Q, R[u], strict) {
      if u != t { assert CountOk(Q, T[u], strict); }
    }
  }

  /** Opening or closing one query changes the number of open ones by one, where it is enrolled. */
  lemma {:induction false} OpensFlip(Q: map<Addr, Query>, P: map<Addr, Query>, s: seq<Addr>, q: Addr)
    requires NoDup(s) && !OpenIn(Q, q) && OpenIn(P, q) && forall p :: p != q ==> OpenIn(P, p) == OpenIn(Q, p)
    ensures Opens(P, s) == Opens(Q, s) + if q in s then 1 else 0
  {
    if s != [] {
      assert NoDup(s[1..]) && s[0] !in s[1..];
      OpensFlip(Q, P, s[1..], q);
    }
  }

  lemma {:induction false} OpensWithout(Q: map<Addr, Query>, s: seq<Addr>, q: Addr)
    requires q in s
    ensures Opens(Q, s) == Opens(Q, Without(s, q)) + if OpenIn(Q, q) then 1 else 0
  {
    if s[0] != q { OpensWithout(Q, s[1..], q); }
  }

  // ------------------------------------------------------------ part by part

  lemma PartsOf(w: World, aux: Option<Addr>)
    requires Inv(w, aux)
    ensures Shape(w.links, w.trans, w.queries, w.batches, w.stmts, aux)
    ensures Tallied(w.trans, w.queries, w.rules.strict, w.wrapped) && WorkOk(w.trans, w.durable, w.next)
  {
    hide Shape, Tallied, WorkOk, Exactly, Addresses;
  }

  /** The parts make the invariant where transactions, queries and handles change and nothing is added but
      at the next address. */
  lemma Rebuilt(w: World, T: map<Addr, Trans>, Q: map<Addr, Query>, S: set<Addr>, next: nat, wrapped: bool,
                aux: Option<Addr>)
    requires Inv(w, aux) && Shape(w.links, T, Q, w.batches, S, aux)
    requires Tallied(T, Q, w.rules.strict, wrapped) && WorkOk(T, w.durable, next)
    requires T.Keys <= w.trans.Keys && forall u :: u in T ==> T[u].exact == w.trans[u].exact
    requires Q.Keys <= w.queries.Keys + {w.next} && S <= w.stmts + {w.next} && next >= w.next
    requires next == w.next ==> Q.Keys <= w.queries.Keys && S <= w.stmts
    ensures Inv(w.(trans := T, queries := Q, stmts := S, next := next, wrapped := wrapped), aux)
  {
    hide Shape, Tallied, WorkOk;
  }

  // ------------------------------------------------------------ scalar changes

  lemma ScalarTrans(w: World, t: Addr, tr: Trans, aux: Option<Addr>)
    requires Inv(w, aux) && t in w.trans && SamePlace(w.trans[t], tr)
    requires tr.handle.Some? ==> tr.link.Some? && (tr.exact ==> tr.handle.value.tpb == tr.tpb)
    requires WorkOk(w.trans[t := tr], w.durable, w.next)
    ensures Inv(SetT(w, t, tr), aux)
  {
    hide Inv, Shape, WorkOk, Tallied;
    PartsOf(w, aux);
    ScalarTransShape(w.links, w.trans, w.queries, w.batches, w.stmts, t, tr, aux);
    TalliedLike(w.trans, w.trans[t := tr], w.queries, w.queries, w.rules.strict, w.wrapped);
    Rebuilt(w, w.trans[t := tr], w.queries, w.stmts, w.next, w.wrapped, aux);
  }

  lemma ScalarTransShape(L: map<Addr, Link>, T: map<Addr, Trans>, Q: map<Addr, Query>, B: map<Addr, Batch>,
                         S: set<Addr>,
                         t: Addr, tr: Trans, aux: Option<Addr>)
    requires Shape(L, T, Q, B, S, aux) && t in T && SamePlace(T[t], tr.(count := T[t].count))
    requires tr.handle.Some? ==> tr.link.Some? && (tr.exact ==> tr.handle.value.tpb == tr.tpb)
    ensures Shape(L, T[t := tr], Q, B, S, aux)
  {
    hide Registered, Batched, Linked, SameLink, Tree, Families, Handles, Columns, Cursors;
    RegisteredT(T, Q, t, tr);
    BatchedLike(T, T[t := tr], B);
    HandlesOnLinks(L, T, aux);
    LinkedLike(L, T, T[t := tr], aux);
    SameLinkLike(T, T[t := tr], Q, Q, aux);
  }

  lemma HandlesOnLinks(L: map<Addr, Link>, T: map<Addr, Trans>, aux: Option<Addr>)
    requires Linked(L, T, aux)
    ensures forall u :: u in T && T[u].handle.Some? ==> T[u].link.Some?
  {
    forall u | u in T ensures T[u].handle.Some? ==> T[u].link.Some? { assert TransOnLink(L, T[u], u, aux); }
  }

  lemma RegisteredT(T: map<Addr, Trans>, Q: map<Addr, Query>, t: Addr, tr: Trans)
    requires Registered(T, Q) && t in T && T[t].queries == tr.queries
    ensures Registered(T[t := tr], Q)
  {
    forall q | q in Q ensures QueryEnrolled(T[t := tr], Q[q], q) { assert QueryEnrolled(T, Q[q], q); }
    forall u | u in T ensures RegistryOk(T[t := tr][u], u, Q) { assert RegistryOk(T[u], u, Q); }
  }

  lemma ScalarQuery(w: World, q: Addr, qq: Query, aux: Option<Addr>)
    requires Inv(w, aux) && q in w.queries && SameRole(w.queries[q], qq) && qq.isOpen == w.queries[q].isOpen
    ensures Inv(SetQ(w, q, qq), aux)
  {
    hide Inv, Shape, WorkOk, Tallied;
    PartsOf(w, aux);
    CursorsOf(w, q, aux);
    ScalarQueryShape(w.links, w.trans, w.queries, w.batches, w.stmts, q, qq, aux);
    TalliedLike(w.trans, w.trans, w.queries, w.queries[q := qq], w.rules.strict, w.wrapped);
    Rebuilt(w, w.trans, w.queries[q := qq], w.stmts, w.next, w.wrapped, aux);
  }

  lemma CursorsOf(w: World, q: Addr, aux: Option<Addr>)
    requires Inv(w, aux) && q in w.queries
    ensures w.queries[q].isOpen && w.queries[q].stmt.Some? ==> w.queries[q].kind.Select?
  {}

  lemma ScalarQueryShape(L: map<Addr, Link>, T: map<Addr, Trans>, Q: map<Addr, Query>, B: map<Addr, Batch>,
                         S: set<Addr>,
                         q: Addr, qq: Query, aux: Option<Addr>)
    requires Shape(L, T, Q, B, S, aux) && q in Q && SameRole(Q[q], qq)
    requires qq.isOpen && qq.stmt.Some? ==> qq.kind.Select?
    ensures Shape(L, T, Q[q := qq], B, S, aux)
  {
    hide Registered, Batched, Linked, SameLink, Tree, Families, Handles, Parameters;
    RegisteredQ(T, Q, q, qq);
    SameLinkLike(T, T, Q, Q[q := qq], aux);
    TreeLike(Q, Q[q := qq]);
    FamiliesLike(Q, Q[q := qq]);
    HandlesLike(Q, Q[q := qq], S);
  }

  lemma RegisteredQ(T: map<Addr, Trans>, Q: map<Addr, Query>, q: Addr, qq: Query)
    requires Registered(T, Q) && q in Q && qq.trans == Q[q].trans && qq.reg == Q[q].reg
    ensures Registered(T, Q[q := qq])
  {
    forall p | p in Q ensures QueryEnrolled(T, Q[q := qq][p], p) { assert QueryEnrolled(T, Q[p], p); }
    forall u | u in T ensures RegistryOk(T[u], u, Q[q := qq]) { assert RegistryOk(T[u], u, Q); }
  }
}
