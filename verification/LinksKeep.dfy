/** Transactions joining and leaving their link, and batches, keep the invariant. */
module LinksKeep {
  import opened State
  import opened Transactions
  import opened Steps
  import opened Invariant
  import opened TransactionsKeep
  import opened StructureKeeps

  // ------------------------------------------------------------ new transactions

  /** A new transaction has no pending work, its own block if it is started exactly, and is the first
      default one of its link if it is one at all. */
  ghost predicate Startable(w: World, l: Addr, tr: Trans) {
    && tr.link == Some(l) && tr.queries == [] && tr.batches == [] && tr.count == 0
    && (tr.handle.Some? ==> tr.handle.value.pending == [] && (tr.exact ==> tr.handle.value.tpb == tr.tpb))
    && (tr.isDefault || w.next in w.rules.faithful ==> tr.exact)
    && (tr.isDefault ==> forall u :: u in w.trans && w.trans[u].isDefault ==> w.trans[u].link != Some(l))
  }

  lemma NewTransKeeps(w: World, l: Addr, tr: Trans, aux: Option<Addr>)
    requires Inv(w, aux) && l in w.links && Startable(w, l, tr) && aux != Some(w.next)
    ensures Inv(NewTrans(w, l, tr), aux)
  {
    hide Shape, WorkOk, Tallied;
    FreshAddress(w, aux);
    TalliedWith(w.trans, w.queries, w.next, tr, w.rules.strict, w.wrapped);
    NewTransShape(w.links, w.trans, w.queries, w.batches, w.stmts, w.next, l, tr, aux);
    WorkWith(w.trans, w.next, tr, w.durable, w.next);
  }

  lemma NewTransShape(L: map<Addr, Link>, T: map<Addr, Trans>, Q: map<Addr, Query>, B: map<Addr, Batch>, S: set<Addr>,
                      t: Addr, l: Addr, tr: Trans, aux: Option<Addr>)
    requires Shape(L, T, Q, B, S, aux) && t !in T && l in L && aux != Some(t)
    requires tr.link == Some(l) && tr.queries == [] && tr.batches == []
    requires tr.exact && tr.handle.Some? ==> tr.handle.value.tpb == tr.tpb
    requires tr.isDefault ==> tr.exact && forall u :: u in T && T[u].isDefault ==> T[u].link != Some(l)
    ensures Shape(L[l := L[l].(trs := L[l].trs + [Some(t)])], T[t := tr], Q, B, S, aux)
  {
    hide Registered, Batched, Linked, SameLink, Tree, Families, Handles, Columns, Cursors;
    NewTransApart(T, Q, B, t, tr, aux);
    NewTransLinked(L, T, t, l, tr, aux);
  }

  lemma NewTransApart(T: map<Addr, Trans>, Q: map<Addr, Query>, B: map<Addr, Batch>, t: Addr, tr: Trans,
                      aux: Option<Addr>)
    requires Registered(T, Q) && Batched(T, B) && SameLink(T, Q, aux) && t !in T && tr.queries == [] && tr.batches == []
    ensures Registered(T[t := tr], Q) && Batched(T[t := tr], B) && SameLink(T[t := tr], Q, aux)
  {
    var R := T[t := tr];
    forall q | q in Q ensures QueryEnrolled(R, Q[q], q) && QueryOnLink(R, Q[q], aux) {
      assert QueryEnrolled(T, Q[q], q) && QueryOnLink(T, Q[q], aux);
    }
    forall u | u in R ensures RegistryOk(R[u], u, Q) { if u != t { assert RegistryOk(T[u], u, Q); } }
    forall b | b in B ensures BatchEnrolled(R, B[b], b) { assert BatchEnrolled(T, B[b], b); }
    forall u | u in R ensures BatchRegistryOk(R[u], u, B) { if u != t { assert BatchRegistryOk(T[u], u, B); } }
  }

  lemma NewTransLinked(L: map<Addr, Link>, T: map<Addr, Trans>, t: Addr, l: Addr, tr: Trans, aux: Option<Addr>)
    requires Linked(L, T, aux) && t !in T && l in L && aux != Some(t) && tr.link == Some(l)
    requires tr.isDefault ==> tr.exact && forall u :: u in T && T[u].isDefault ==> T[u].link != Some(l)
    ensures Linked(L[l := L[l].(trs := L[l].trs + [Some(t)])], T[t := tr], aux)
  {
    var M, R := L[l := L[l].(trs := L[l].trs + [Some(t)])], T[t := tr];
    forall u | u in R ensures TransOnLink(M, R[u], u, aux) {
      if u != t { assert TransOnLink(L, T[u], u, aux); }
    }
    forall k | k in M ensures ListOk(M[k], k, R, aux) { assert ListOk(L[k], k, T, aux); }
  }

  /** The transaction of fbird_execute_auto, on no list. */
  lemma AuxKeeps(w: World, l: Addr, t: Addr, tr: Trans)
    requires Inv(w, None) && l in w.links && t == w.next && Startable(w, l, tr) && !tr.isDefault
    ensures Inv(w.(trans := w.trans[t := tr], next := t + 1), Some(t))
  {
    hide Registered, Batched, Linked, SameLink, Tree, Families, Handles, Columns, Cursors, WorkOk, Tallied;
    FreshAddress(w, None);
    TalliedWith(w.trans, w.queries, t, tr, w.rules.strict, w.wrapped);
    WorkWith(w.trans, t, tr, w.durable, w.next);
    NewTransApart(w.trans, w.queries, w.batches, t, tr, None);
    AuxLinked(w.links, w.trans, t, l, tr);
    AuxSameLink(w.trans[t := tr], w.queries, t);
  }

  lemma AuxLinked(L: map<Addr, Link>, T: map<Addr, Trans>, t: Addr, l: Addr, tr: Trans)
    requires Linked(L, T, None) && t !in T && l in L && tr.link == Some(l) && !tr.isDefault
    ensures Linked(L, T[t := tr], Some(t))
  {
    var R := T[t := tr];
    forall u | u in R ensures TransOnLink(L, R[u], u, Some(t)) { if u != t { assert TransOnLink(L, T[u], u, None); } }
    forall k | k in L ensures ListOk(L[k], k, R, Some(t)) { assert ListOk(L[k], k, T, None); }
  }

  lemma AuxSameLink(T: map<Addr, Trans>, Q: map<Addr, Query>, t: Addr)
    requires SameLink(T, Q, None)
    ensures SameLink(T, Q, Some(t))
  {
    forall q | q in Q ensures QueryOnLink(T, Q[q], Some(t)) { assert QueryOnLink(T, Q[q], None); }
  }

  // ------------------------------------------------------------ default transactions

  /** The walk finds the only default transaction of the link, or there is none. */
  lemma DefaultFound(w: World, l: Addr, aux: Option<Addr>)
    requires Inv(w, aux) && l in w.links
    ensures Walkable(w, l)
    ensures var f := FirstDefault(w.trans, w.links[l].trs);
            if f.Some? then f.value in w.trans && w.trans[f.value].isDefault && w.trans[f.value].link == Some(l)
            else forall u :: u in w.trans && w.trans[u].isDefault ==> w.trans[u].link != Some(l)
  {
    var f := FirstDefault(w.trans, w.links[l].trs);
    assert ListOk(w.links[l], l, w.trans, aux);
    FirstDefaultIs(w.trans, w.links[l].trs);
    if f.None? {
      forall u | u in w.trans && w.trans[u].isDefault ensures w.trans[u].link != Some(l) {
        assert TransOnLink(w.links, w.trans[u], u, aux);
      }
    }
  }

  lemma {:induction false} FirstDefaultIs(T: map<Addr, Trans>, trs: seq<Option<Addr>>)
    ensures var f := FirstDefault(T, trs);
            if f.Some? then f in trs && f.value in T && T[f.value].isDefault
            else forall n :: n in trs && n.Some? && n.value in T ==> !T[n.value].isDefault
  {
    if trs != [] { FirstDefaultIs(T, trs[1..]); }
  }

  /** The walk reads nothing but which of the listed transactions are there and which is the default one. */
  lemma {:induction false} FirstDefaultLike(T: map<Addr, Trans>, R: map<Addr, Trans>, trs: seq<Option<Addr>>)
    requires forall n :: n in trs && n.Some? ==>
               (n.value in R <==> n.value in T) && (n.value in T && n.value in R ==>
                   R[n.value].isDefault == T[n.value].isDefault)
    ensures FirstDefault(R, trs) == FirstDefault(T, trs)
  {
    if trs != [] {
      assert trs[0] in trs;
      FirstDefaultLike(T, R, trs[1..]);
    }
  }

  /** What DefTrans delivers: the live, default transaction of the link. */
  ghost predicate DefaultOf(w: World, t: Addr, l: Addr) {
    t in w.trans && w.trans[t].isDefault && w.trans[t].link == Some(l) && w.trans[t].handle.Some?
  }

  ghost predicate DefTransFrame(w: World, w1: World) {
    && Same(w1.queries, w.queries) && Same(w1.batches, w.batches) && w1.links.Keys == w.links.Keys
    && w.trans.Keys <= w1.trans.Keys && w1.rules == w.rules
  }

  lemma SlotKeeps(w: World, l: Addr, aux: Option<Addr>)
    requires Inv(w, aux) && l in w.links && aux != Some(w.next)
    ensures var (t, w1) := DefaultSlot(w, l);
            Inv(w1, aux) && DefTransFrame(w, w1) && t in w1.trans && w1.trans[t].isDefault &&
            w1.trans[t].link == Some(l)
  {
    hide Inv;
    DefaultFound(w, l, aux);
    if FirstDefault(w.trans, w.links[l].trs).None? { NewTransKeeps(w, l, FreshTrans(l, true, [], true, None), aux); }
  }

  lemma StartDefaultKeeps(w: World, t: Addr, dflt: seq<Byte>, net: Net, aux: Option<Addr>)
    requires Inv(w, aux) && t in w.trans && w.trans[t].link.Some?
    ensures var (r, w1) := StartDefault(w, t, dflt, net);
            Inv(w1, aux) && (r.Some? ==> r.value == t && w1.trans[t].handle.Some?)
  {
    hide Inv;
    TickKeeps(w, aux);
    if w.trans[t].handle.None? {
      FlagsKeep(Tick(w), t, w.trans[t].(handle := Some(Handle(dflt, [], false)), tpb := dflt), aux);
    }
  }

  lemma DefTransKeeps(w: World, l: Addr, dflt: seq<Byte>, net: Net, aux: Option<Addr>)
    requires Inv(w, aux) && l in w.links && aux != Some(w.next)
    ensures Inv(DefTrans(w, l, dflt, net).1, aux)
    ensures DefTrans(w, l, dflt, net).0.Some? ==>
              DefaultOf(DefTrans(w, l, dflt, net).1, DefTrans(w, l, dflt, net).0.value, l)
    ensures DefTransFrame(w, DefTrans(w, l, dflt, net).1)
  {
    hide Inv, DefaultSlot, StartDefault;
    DefaultFound(w, l, aux);
    SlotKeeps(w, l, aux);
    var (t, w1) := DefaultSlot(w, l);
    StartDefaultKeeps(w1, t, dflt, net, aux);
  }

  /** A link that has a default transaction keeps using it. */
  lemma DefTransStays(w: World, l: Addr, t: Addr, dflt: seq<Byte>, net: Net, aux: Option<Addr>)
    requires Inv(w, aux) && l in w.links && t in w.trans && w.trans[t].isDefault && w.trans[t].link == Some(l)
    ensures var (r, w1) := DefTrans(w, l, dflt, net);
            && (r.Some? ==> r.value == t) && t in w1.trans && SamePlace(w.trans[t], w1.trans[t])
            && w1.wrapped == w.wrapped && w1.rules == w.rules
  {
    hide Inv, StartDefault;
    OnlyDefault(w, l, t, aux);
    DefaultFound(w, l, aux);
    StartDefaultIs(w, t, dflt, net);
  }

  lemma OnlyDefault(w: World, l: Addr, t: Addr, aux: Option<Addr>)
    requires Inv(w, aux) && l in w.links && t in w.trans && w.trans[t].isDefault && w.trans[t].link == Some(l)
    ensures FirstDefault(w.trans, w.links[l].trs) == Some(t)
  {
    DefaultFound(w, l, aux);
    assert OneDefault(w.trans);
  }

  lemma StartDefaultIs(w: World, t: Addr, dflt: seq<Byte>, net: Net)
    requires t in w.trans
    ensures var (r, w1) := StartDefault(w, t, dflt, net);
            && (r.Some? ==> r.value == t) && t in w1.trans && SamePlace(w.trans[t], w1.trans[t])
            && w1.wrapped == w.wrapped && w1.rules == w.rules
  {
    hide SameLayout, OnlyTrans;
  }

  // ------------------------------------------------------------ leaving

  /** A transaction that no tr_list names any more (`L'`) is detached and freed. */
  lemma FreeOffList(w: World, L': map<Addr, Link>, t: Addr, aux: Option<Addr>, aux': Option<Addr>)
    requires Inv(w, aux) && t in w.trans && L'.Keys == w.links.Keys
    requires forall l :: l in L' ==> ListOk(L'[l], l, w.trans - {t}, aux')
    requires forall u :: u in w.trans && u != t ==> TransOnLink(L', w.trans[u], u, aux')
    requires aux' == aux || (aux == Some(t) && aux' == None)
    ensures Inv(DetachAndFree(w.(links := L'), t), aux') && DetachAndFree(w.(links := L'), t).rules == w.rules
  {
    hide Shape, WorkOk, Tallied, ListOk, TransOnLink;
    var (T, Q) := (w.trans - {t}, Detached(w.queries, w.trans[t].queries));
    DetachShape(L', w.links, w.trans, w.queries, w.batches, w.stmts, t, aux, aux');
    DetachIs(w.(links := L'), t);
    hide DetachAndFree;
    WorkLike(w.trans, T, w.durable, w.next, w.next);
    TalliedLike(w.trans, T, w.queries, Q, w.rules.strict, w.wrapped);
  }

  lemma DetachShape(L': map<Addr, Link>, L: map<Addr, Link>, T: map<Addr, Trans>, Q: map<Addr, Query>, B: map<Addr,
                    Batch>, S: set<Addr>,
                    t: Addr, aux: Option<Addr>, aux': Option<Addr>)
    requires Shape(L, T, Q, B, S, aux) && t in T && (aux' == aux || (aux == Some(t) && aux' == None))
    requires forall l :: l in L' ==> ListOk(L'[l], l, T - {t}, aux')
    requires forall u :: u in T && u != t ==> TransOnLink(L', T[u], u, aux')
    ensures Shape(L', T - {t}, Detached(Q, T[t].queries), DetachedBatches(B, T[t].batches), S, aux')
    ensures forall q :: q in T[t].queries ==> q in Q
    ensures forall b :: b in T[t].batches ==> b in B
  {
    hide Registered, Batched, Linked, SameLink, Tree, Families, Handles, Columns, Cursors, Parameters, ListOk,
         TransOnLink;
    var P := Detached(Q, T[t].queries);
    DetachRegistered(T, Q, t);
    DetachBatched(T, B, t);
    DetachLinked(L', L, T, t, aux, aux');
    DetachSameLink(T, Q, t, aux, aux');
    TreeLike(Q, P);
    DetachFamilies(T, Q, t);
    HandlesLike(Q, P, S);
    ColumnsLike(Q, P);
    CursorsLike(Q, P);
    ParametersLike(T, T - {t});
  }

  /** A statement of the caller's transaction and its results are detached together. */
  lemma DetachFamilies(T: map<Addr, Trans>, Q: map<Addr, Query>, t: Addr)
    requires Registered(T, Q) && Families(Q) && t in T
    ensures Families(Detached(Q, T[t].queries))
  {
    var P := Detached(Q, T[t].queries);
    assert RegistryOk(T[t], t, Q);
    forall q | q in P ensures InFamily(P, P[q]) {
      assert InFamily(Q, Q[q]) && QueryEnrolled(T, Q[q], q);
      if Q[q].parent.Some? && Q[q].parent.value in Q {
        assert QueryEnrolled(T, Q[Q[q].parent.value], Q[q].parent.value);
      }
    }
  }

  lemma DetachIs(w: World, t: Addr)
    requires t in w.trans && (forall q :: q in w.trans[t].queries ==> q in w.queries) &&
             forall b :: b in w.trans[t].batches ==> b in w.batches
    ensures DetachAndFree(w, t) == w.(trans := w.trans - {t}, queries := Detached(w.queries, w.trans[t].queries),
                                      batches := DetachedBatches(w.batches, w.trans[t].batches))
  {}

  function Detached(Q: map<Addr, Query>, gone: seq<Addr>): map<Addr, Query> {
    map q | q in Q :: if q in gone then Q[q].(trans := None, reg := None) else Q[q]
  }

  function DetachedBatches(B: map<Addr, Batch>, gone: seq<Addr>): map<Addr, Batch> {
    map b | b in B :: if b in gone then B[b].(trans := None, reg := None) else B[b]
  }

  lemma DetachRegistered(T: map<Addr, Trans>, Q: map<Addr, Query>, t: Addr)
    requires Registered(T, Q) && t in T
    ensures Registered(T - {t}, Detached(Q, T[t].queries))
    ensures forall q :: q in T[t].queries ==> q in Q
  {
    var (R, P) := (T - {t}, Detached(Q, T[t].queries));
    assert RegistryOk(T[t], t, Q);
    forall q | q in P ensures QueryEnrolled(R, P[q], q) { assert QueryEnrolled(T, Q[q], q); }
    forall u | u in R ensures RegistryOk(R[u], u, P) { assert RegistryOk(T[u], u, Q); }
  }

  lemma DetachBatched(T: map<Addr, Trans>, B: map<Addr, Batch>, t: Addr)
    requires Batched(T, B) && t in T
    ensures Batched(T - {t}, DetachedBatches(B, T[t].batches))
    ensures forall b :: b in T[t].batches ==> b in B
  {
    var (R, C) := (T - {t}, DetachedBatches(B, T[t].batches));
    assert BatchRegistryOk(T[t], t, B);
    forall b | b in C ensures BatchEnrolled(R, C[b], b) { assert BatchEnrolled(T, B[b], b); }
    forall u | u in R ensures BatchRegistryOk(R[u], u, C) { assert BatchRegistryOk(T[u], u, B); }
  }

  lemma DetachLinked(L': map<Addr, Link>, L: map<Addr, Link>, T: map<Addr, Trans>, t: Addr, aux: Option<Addr>,
                     aux': Option<Addr>)
    requires Linked(L, T, aux)
    requires forall l :: l in L' ==> ListOk(L'[l], l, T - {t}, aux')
    requires forall u :: u in T && u != t ==> TransOnLink(L', T[u], u, aux')
    ensures Linked(L', T - {t}, aux')
  {
    assert OneDefault(T);
    var R := T - {t};
    forall u | u in R ensures TransOnLink(L', R[u], u, aux') { assert TransOnLink(L', T[u], u, aux'); }
  }

  lemma DetachSameLink(T: map<Addr, Trans>, Q: map<Addr, Query>, t: Addr, aux: Option<Addr>, aux': Option<Addr>)
    requires SameLink(T, Q, aux) && t in T && (aux' == aux || (aux == Some(t) && aux' == None))
    requires Registered(T, Q)
    ensures SameLink(T - {t}, Detached(Q, T[t].queries), aux')
  {
    var (R, P) := (T - {t}, Detached(Q, T[t].queries));
    forall q | q in P ensures QueryOnLink(R, P[q], aux') {
      assert QueryOnLink(T, Q[q], aux) && QueryEnrolled(T, Q[q], q);
    }
  }

  /** A transaction that was not default, already off every list. */
  lemma FreeUnlisted(w: World, t: Addr, aux: Option<Addr>, aux': Option<Addr>)
    requires Inv(w, aux) && t in w.trans && !w.trans[t].isDefault
    requires (aux == Some(t) && aux' == None) || (aux' == aux && w.trans[t].link.None?)
    ensures Inv(DetachAndFree(w, t), aux') && DetachAndFree(w, t).rules == w.rules
  {
    forall l | l in w.links ensures ListOk(w.links[l], l, w.trans - {t}, aux') {
      assert ListOk(w.links[l], l, w.trans, aux);
    }
    forall u | u in w.trans && u != t ensures TransOnLink(w.links, w.trans[u], u, aux') {
      assert TransOnLink(w.links, w.trans[u], u, aux);
    }
    assert w.(links := w.links) == w;
    FreeOffList(w, w.links, t, aux, aux');
  }

  // ------------------------------------------------------------ tr_list surgery

  lemma {:induction false} WithoutNode(trs: seq<Option<Addr>>, n: Option<Addr>)
    requires n.Some? && forall i, j :: 0 <= i < j < |trs| && trs[i].Some? ==> trs[i] != trs[j]
    ensures var r := Without(trs, n); n !in r && forall i, j :: 0 <= i < j < |r| && r[i].Some? ==> r[i] != r[j]
    ensures forall m :: m != n ==> (m in Without(trs, n) <==> m in trs)
  {
    forall m | m != n ensures m in Without(trs, n) <==> m in trs { WithoutIn(trs, n, m); }
    if trs != [] && trs[0] != n {
      assert forall i :: 0 <= i < |trs| - 1 ==> trs[1..][i] == trs[i + 1];
      WithoutNode(trs[1..], n);
      var r := Without(trs[1..], n);
      if trs[0].Some? {
        assert trs[0] !in trs[1..];
        WithoutIn(trs[1..], n, trs[0]);
      }
      assert Without(trs, n) == [trs[0]] + r;
    }
  }

  lemma {:induction false} BlankNode(trs: seq<Option<Addr>>, t: Addr)
    requires forall i, j :: 0 <= i < j < |trs| && trs[i].Some? ==> trs[i] != trs[j]
    ensures var r := Blank(trs, t);
            Some(t) !in r && |r| == |trs| && forall i :: 0 <= i < |r| ==>
                r[i] == if trs[i] == Some(t) then None else trs[i]
  {
    if trs != [] && trs[0] != Some(t) {
      assert forall i :: 0 <= i < |trs| - 1 ==> trs[1..][i] == trs[i + 1];
      BlankNode(trs[1..], t);
    }
  }

  /** `t` off the list of `l`: the list keeps its other transactions, once each. */
  ghost predicate OffList(w: World, l: Addr, t: Addr, trs: seq<Option<Addr>>) {
    && l in w.links && t in w.trans && Some(t) !in trs
    && (forall i, j :: 0 <= i < j < |trs| && trs[i].Some? ==> trs[i] != trs[j])
    && (forall n: Option<Addr> :: n.Some? && n != Some(t) ==> (n in trs <==> n in w.links[l].trs))
  }

  /** An explicit transaction without a handle leaves its link. */
  lemma UnlistExplicit(w: World, l: Addr, t: Addr, trs: seq<Option<Addr>>, aux: Option<Addr>)
    requires Inv(w, aux) && OffList(w, l, t, trs) && w.trans[t].link == Some(l)
    requires !w.trans[t].isDefault && w.trans[t].handle.None? && aux != Some(t)
    ensures Inv(w.(links := w.links[l := w.links[l].(trs := trs)], trans := w.trans[t := w.trans[t].(link := None)]),
                aux)
  {
    hide Registered, Batched, Linked, SameLink, Tree, Families, Handles, Columns, Cursors, WorkOk, Tallied;
    var tr := w.trans[t].(link := None);
    TalliedLike(w.trans, w.trans[t := tr], w.queries, w.queries, w.rules.strict, w.wrapped);
    RegisteredT(w.trans, w.queries, t, tr);
    BatchedLike(w.trans, w.trans[t := tr], w.batches);
    UnlistSameLink(w.trans, w.queries, t, aux);
    UnlistLinked(w, l, t, trs, aux);
    WorkLike(w.trans, w.trans[t := tr], w.durable, w.next, w.next);
  }

  lemma UnlistSameLink(T: map<Addr, Trans>, Q: map<Addr, Query>, t: Addr, aux: Option<Addr>)
    requires SameLink(T, Q, aux) && t in T
    ensures SameLink(T[t := T[t].(link := None)], Q, aux)
  {
    forall q | q in Q ensures QueryOnLink(T[t := T[t].(link := None)], Q[q], aux) { assert QueryOnLink(T, Q[q], aux); }
  }

  lemma UnlistLinked(w: World, l: Addr, t: Addr, trs: seq<Option<Addr>>, aux: Option<Addr>)
    requires Linked(w.links, w.trans, aux) && OffList(w, l, t, trs) && w.trans[t].link == Some(l)
    requires !w.trans[t].isDefault && w.trans[t].handle.None? && aux != Some(t)
    ensures Linked(w.links[l := w.links[l].(trs := trs)], w.trans[t := w.trans[t].(link := None)], aux)
  {
    var (L, T) := (w.links[l := w.links[l].(trs := trs)], w.trans[t := w.trans[t].(link := None)]);
    hide ListOk, TransOnLink, OneDefault;
    UnlistDefault(w.trans, t);
    forall u | u in T ensures TransOnLink(L, T[u], u, aux) { UnlistOne(w, l, t, trs, u, aux); }
    UnlistLists(w, l, t, trs, aux);
  }

  lemma UnlistDefault(T: map<Addr, Trans>, t: Addr)
    requires OneDefault(T) && t in T && !T[t].isDefault
    ensures OneDefault(T[t := T[t].(link := None)])
  {}

  lemma UnlistOne(w: World, l: Addr, t: Addr, trs: seq<Option<Addr>>, u: Addr, aux: Option<Addr>)
    requires Linked(w.links, w.trans, aux) && OffList(w, l, t, trs) && u in w.trans
    requires w.trans[t].link == Some(l) && !w.trans[t].isDefault && w.trans[t].handle.None? && aux != Some(t)
    ensures var T := w.trans[t := w.trans[t].(link := None)];
            TransOnLink(w.links[l := w.links[l].(trs := trs)], T[u], u, aux)
  {
    assert TransOnLink(w.links, w.trans[u], u, aux);
  }

  lemma UnlistLists(w: World, l: Addr, t: Addr, trs: seq<Option<Addr>>, aux: Option<Addr>)
    requires Linked(w.links, w.trans, aux) && OffList(w, l, t, trs) && w.trans[t].link == Some(l)
    ensures l in w.links && t in w.trans
    ensures var L := w.links[l := w.links[l].(trs := trs)];
            forall k :: k in L ==> ListOk(L[k], k, w.trans[t := w.trans[t].(link := None)], aux)
  {
    hide TransOnLink;
    var (L, T) := (w.links[l := w.links[l].(trs := trs)], w.trans[t := w.trans[t].(link := None)]);
    forall k | k in L ensures ListOk(L[k], k, T, aux) { assert ListOk(w.links[k], k, w.trans, aux); }
  }

  lemma UnlinkKeeps(w: World, t: Addr, aux: Option<Addr>)
    requires Inv(w, aux) && t in w.trans && !w.trans[t].isDefault && w.trans[t].handle.None? && aux != Some(t)
    ensures Inv(UnlinkTrans(w, t), aux) && UnlinkTrans(w, t).rules == w.rules
    ensures var w1 := UnlinkTrans(w, t); t in w1.trans && w1.trans[t] == w.trans[t].(link := None)
  {
    LinkLive(w, t, aux);
    if w.trans[t].link.Some? {
      var l := w.trans[t].link.value;
      assert ListOk(w.links[l], l, w.trans, aux);
      WithoutNode(w.links[l].trs, Some(t));
      UnlistExplicit(w, l, t, Without(w.links[l].trs, Some(t)), aux);
    }
  }

  /** A default transaction leaves its list and is freed in one go. */
  lemma FreeDefault(w: World, l: Addr, t: Addr, trs: seq<Option<Addr>>, aux: Option<Addr>)
    requires Inv(w, aux) && OffList(w, l, t, trs) && w.trans[t].link == Some(l)
    ensures var w1 := DetachAndFree(w.(links := w.links[l := w.links[l].(trs := trs)]), t);
            Inv(w1, aux) && w1.rules == w.rules
  {
    hide Inv, ListOk, TransOnLink, OffList;
    LinkedOf(w, aux);
    DefaultOff(w, l, t, trs, aux);
    FreeOffList(w, w.links[l := w.links[l].(trs := trs)], t, aux, aux);
  }

  lemma LinkedOf(w: World, aux: Option<Addr>)
    requires Inv(w, aux)
    ensures Linked(w.links, w.trans, aux)
  {}

  lemma DefaultOff(w: World, l: Addr, t: Addr, trs: seq<Option<Addr>>, aux: Option<Addr>)
    requires Linked(w.links, w.trans, aux) && OffList(w, l, t, trs) && w.trans[t].link == Some(l)
    ensures l in w.links && t in w.trans
    ensures var L := w.links[l := w.links[l].(trs := trs)];
            && (forall k :: k in L ==> ListOk(L[k], k, w.trans - {t}, aux))
            && forall u :: u in w.trans && u != t ==> TransOnLink(L, w.trans[u], u, aux)
  {
    var L := w.links[l := w.links[l].(trs := trs)];
    forall k | k in L ensures ListOk(L[k], k, w.trans - {t}, aux) { assert ListOk(w.links[k], k, w.trans, aux); }
    forall u | u in w.trans && u != t ensures TransOnLink(L, w.trans[u], u, aux) {
      assert TransOnLink(w.links, w.trans[u], u, aux);
    }
  }

  lemma EndAndDropIs(w: World, t: Addr, act: bool, commit: bool, net: Net)
    requires t in w.trans
    ensures var r := EndAndDrop(w, t, act, commit, net); r.trans[t].handle.None? && SamePlace(w.trans[t], r.trans[t])
    ensures forall u :: u in w.trans && u != t ==> EndAndDrop(w, t, act, commit, net).trans[u] == w.trans[u]
  {}

  lemma FreeTransKeeps(w: World, t: Addr, net: Net, aux: Option<Addr>)
    requires Inv(w, aux) && t in w.trans && !w.trans[t].isDefault && aux != Some(t)
    ensures var r := FreeTrans(w, t, net); Inv(r, aux) && r.rules == w.rules && t !in r.trans
  {
    hide Inv, EndAndDrop, UnlinkTrans, DetachAndFree;
    LinkLive(w, t, aux);
    TickKeeps(w, aux);
    var pings := w.trans[t].handle.Some? && w.trans[t].link.Some?;
    var w0 := if pings then Tick(w) else w;
    EndAndDropKeeps(w0, t, pings && net(w.tick), false, net, aux);
    EndAndDropIs(w0, t, pings && net(w.tick), false, net);
    var w1 := EndAndDrop(w0, t, pings && net(w.tick), false, net);
    UnlinkKeeps(w1, t, aux);
    FreeUnlisted(UnlinkTrans(w1, t), t, aux, aux);
    DetachGone(UnlinkTrans(w1, t), t, aux);
  }

  /** A struct that is detached without a fault is gone. */
  lemma DetachGone(w: World, t: Addr, aux: Option<Addr>)
    requires Inv(DetachAndFree(w, t), aux)
    ensures t !in DetachAndFree(w, t).trans
  {}
}
