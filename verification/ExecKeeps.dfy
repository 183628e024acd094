/** Preparing and executing keep the invariant. */
module ExecKeeps {
  import opened State
  import opened Transactions
  import opened Queries
  import opened Invariant
  import opened TransactionsKeep
  import opened StructureKeeps
  import opened LinksKeep
  import opened QueriesKeep

  /** Two query structs that differ in cursor flags and enrolment only. */
  ghost predicate SameIdentity(a: Query, b: Query) {
    && b.link == a.link && b.explicit == a.explicit && b.kind == a.kind && b.columns == a.columns && b.sqld == a.sqld
    && b.inputs == a.inputs && b.canBind == a.canBind
    && b.stmt == a.stmt && b.owns == a.owns && b.parent == a.parent && b.children == a.children
  }

  /** What an execution leaves alone: links, batches, transactions, and the identity of its query. */
  ghost predicate Kept(w: World, w1: World, q: Addr) {
    && w1.links.Keys == w.links.Keys && Same(w1.batches, w.batches) && w.trans.Keys <= w1.trans.Keys &&
       w1.rules == w.rules
    && q in w.queries && q in w1.queries && SameIdentity(w.queries[q], w1.queries[q])
  }

  ghost predicate AuxLive(w: World, aux: Option<Addr>) { aux.Some? ==> aux.value in w.trans }

  // ------------------------------------------------------------ preparing

  /** What _php_fbird_prepare hands out. */
  ghost predicate Prepared(w: World, q: Addr, l: Addr, t: Addr, explicit: bool, kind: Kind) {
    q in w.queries &&
    var qq := w.queries[q];
    && qq.stmt.Some? && qq.owns && qq.children == [] && qq.parent.None? && !qq.isOpen
    && qq.link == l && qq.trans == Some(t) && qq.explicit == explicit && qq.kind == kind
    && qq.canBind == (qq.inputs > 0)
  }

  ghost predicate PrepareFrame(w: World, w1: World) {
    Same(w1.links, w.links) && w1.batches.Keys == w.batches.Keys && w1.trans.Keys == w.trans.Keys && w1.rules == w.rules
  }

  /** The query struct before and after its statement handle has been attached. */
  lemma BirthKeeps(w: World, l: Addr, t: Addr, explicit: bool, kind: Kind, aux: Option<Addr>)
    requires Inv(w, aux) && Fits(w, l, explicit, t, aux)
    ensures var w1 := NewQuery(w, t, FreshQuery(l, explicit, kind));
            && Inv(w1, aux) && PrepareFrame(w, w1) && w.next in w1.queries
            && w1.queries[w.next] == FreshQuery(l, explicit, kind).(trans := Some(t), reg := Some(t))
  {
    hide Inv, NewQuery;
    FreshAddress(w, aux);
    NewQueryKeeps(w, t, FreshQuery(l, explicit, kind), aux);
    NewRootIs(w, t, FreshQuery(l, explicit, kind));
  }

  lemma NewRootIs(w: World, t: Addr, qq: Query)
    requires t in w.trans && qq.parent.None?
    ensures var w1 := NewQuery(w, t, qq);
            PrepareFrame(w, w1) && w.next in w1.queries &&
            Same(w1.queries[w.next], qq.(trans := Some(t), reg := Some(t)))
  {}

  lemma PrepareKeeps(w: World, l: Addr, t: Addr, explicit: bool, kind: Kind, form: Form, net: Net, aux: Option<Addr>)
    requires Inv(w, aux) && l in w.links && Fits(w, l, explicit, t, aux)
    ensures var (q, w1) := Prepare(w, l, t, explicit, kind, form, net);
            && Inv(w1, aux) && PrepareFrame(w, w1)
            && (q.Some? ==> Prepared(w1, q.value, l, t, explicit, kind))
  {
    hide Inv, NewQuery, PrepareOn;
    BirthKeeps(w, l, t, explicit, kind, aux);
    var q := w.next;
    var w1 := NewQuery(w, t, FreshQuery(l, explicit, kind));
    PrepareOnKeeps(w1, q, t, form, net, aux);
  }

  lemma PrepareOnKeeps(w: World, q: Addr, t: Addr, form: Form, net: Net, aux: Option<Addr>)
    requires Inv(w, aux) && t in w.trans && q in w.queries
    requires w.queries[q].stmt.None? && w.queries[q].owns && w.queries[q].parent.None? && !w.queries[q].isOpen
    ensures var (r, w1) := PrepareOn(w, q, t, form, net);
            && Inv(w1, aux) && PrepareFrame(w, w1)
            && (r.Some? ==> r.value == q && q in w1.queries && w1.queries[q].stmt.Some? &&
                            w1.queries[q] == Described(w.queries[q].(stmt := w1.queries[q].stmt), form))
  {
    hide Inv, FreeQuery, AttachStmt, Describe;
    TickKeeps(w, aux);
    FreeQueryKeeps(w, q, net, aux);
    FreeQueryKeeps(Tick(w), q, net, aux);
    if w.trans[t].handle.Some? && net(w.tick) {
      AttachKeeps(Tick(w), q, aux);
      AttachIs(Tick(w), q);
      DescribeKeeps(AttachStmt(Tick(w), q), q, form, net, aux);
    }
  }

  lemma AttachIs(w: World, q: Addr)
    requires q in w.queries
    ensures var w1 := AttachStmt(w, q);
            && PrepareFrame(w, w1) && q in w1.queries && Same(w1.queries[q], w.queries[q].(stmt := Some(w.next)))
  {}

  lemma DescribeKeeps(w: World, q: Addr, form: Form, net: Net, aux: Option<Addr>)
    requires Inv(w, aux) && Fetched(w, q)
    ensures var (r, w1) := Describe(w, q, form, net);
            && Inv(w1, aux) && PrepareFrame(w, w1)
            && (r.Some? ==> r.value == q && Same(w1.queries, w.queries[q := Described(w.queries[q], form)]))
  {
    hide Inv, FreeQuery;
    TickKeeps(w, aux);
    FreeQueryKeeps(Tick(w), q, net, aux);
    if form.columns <= MAX_COLUMNS { CountKeeps(Tick(w), q, form, aux); }
  }

  lemma CountKeeps(w: World, q: Addr, form: Form, aux: Option<Addr>)
    requires Inv(w, aux) && q in w.queries && form.columns <= MAX_COLUMNS
    ensures Inv(SetQ(w, q, Described(w.queries[q], form)), aux)
  {
    hide Inv, Shape, WorkOk, Tallied;
    PartsOf(w, aux);
    var qq := Described(w.queries[q], form);
    CursorsOf(w, q, aux);
    CountShape(w.links, w.trans, w.queries, w.batches, w.stmts, q, qq, aux);
    TalliedLike(w.trans, w.trans, w.queries, w.queries[q := qq], w.rules.strict, w.wrapped);
    Rebuilt(w, w.trans, w.queries[q := qq], w.stmts, w.next, w.wrapped, aux);
  }

  lemma CountShape(L: map<Addr, Link>, T: map<Addr, Trans>, Q: map<Addr, Query>, B: map<Addr, Batch>, S: set<Addr>,
                   q: Addr, qq: Query, aux: Option<Addr>)
    requires Shape(L, T, Q, B, S, aux) && q in Q && qq.sqld == qq.columns <= MAX_COLUMNS
    requires Same(qq, Q[q].(columns := qq.columns, sqld := qq.sqld, inputs := qq.inputs, canBind := qq.canBind))
    requires qq.isOpen && qq.stmt.Some? ==> qq.kind.Select?
    ensures Shape(L, T, Q[q := qq], B, S, aux)
  {
    hide Registered, Batched, Linked, SameLink, Tree, Families, Handles, Parameters;
    RegisteredQ(T, Q, q, qq);
    SameLinkLike(T, T, Q, Q[q := qq], aux);
    TreeLike(Q, Q[q := qq]);
    FamiliesLike(Q, Q[q := qq]);
    HandlesLike(Q, Q[q := qq], S);
  }

  // ------------------------------------------------------------ the steps of an execution

  lemma FlagsKept(w: World, w1: World, q: Addr)
    requires SameLayout(w, w1) && OnlyFlags(w.queries, w1.queries, q)
    ensures forall x :: x in w.queries ==> Kept(w, w1, x)
  {}

  lemma ReexecKeeps(w: World, q: Addr, net: Net, aux: Option<Addr>)
    requires Inv(w, aux) && q in w.queries
    ensures Inv(CloseForReexec(w, q, net), aux) && Kept(w, CloseForReexec(w, q, net), q)
    ensures (w.queries[q].kind.Procedure? ==> Settled(w, q, aux)) ==> Settled(CloseForReexec(w, q, net), q, aux)
    ensures w.queries[q].kind.Procedure? ==> CloseForReexec(w, q, net) == w
  {
    hide Inv, Shut, QueryOnLink;
    QueryLive(w, q, aux);
    CursorsOf(w, q, aux);
    ErrorKeeps(w, q, net, aux);
  }

  /** An execution of `q` would first have to start its default transaction again. */
  predicate Rehomes(w: World, q: Addr) {
    q in w.queries &&
    var qq := w.queries[q];
    qq.trans.Some? && !qq.explicit && qq.trans.value in w.trans && w.trans[qq.trans.value].handle.None?
  }

  /** An open query moves to a restarted default transaction only in a run that is not strict, and never
      during fbird_execute_auto. */
  predicate Movable(w: World, q: Addr, aux: Option<Addr>) {
    q in w.queries && (w.rules.strict || aux.Some? ==> !w.queries[q].isOpen)
  }

  predicate Settled(w: World, q: Addr, aux: Option<Addr>) { q in w.queries && (Rehomes(w, q) ==> Movable(w, q, aux)) }

  lemma ErrorKeeps(w: World, q: Addr, net: Net, aux: Option<Addr>)
    requires Inv(w, aux) && q in w.queries
    ensures Inv(Shut(w, q, net), aux) && Kept(w, Shut(w, q, net), q) && !Shut(w, q, net).queries[q].isOpen
  {
    hide Inv, Shut;
    ShutKeeps(w, q, net, aux);
    FlagsKept(w, Shut(w, q, net), q);
  }

  lemma UnenrollIs(w: World, q: Addr, aux: Option<Addr>)
    requires Inv(w, aux) && q in w.queries
    ensures var w1 := Unenroll(w, q); Kept(w, w1, q) && w1.next == w.next && w1.queries[q].trans.None?
  {
    hide Inv, QueryOnLink;
    QueryLive(w, q, aux);
  }

  lemma EnrollIs(w: World, q: Addr, t: Addr)
    requires q in w.queries && t in w.trans
    ensures Kept(w, Enroll(w, q, t), q)
  {}

  lemma KeptChain(w: World, w1: World, w2: World, q: Addr)
    requires Kept(w, w1, q) && Kept(w1, w2, q)
    ensures Kept(w, w2, q)
  {}

  lemma RehomeKeeps(w: World, q: Addr, dflt: seq<Byte>, net: Net, aux: Option<Addr>)
    requires Inv(w, aux) && AuxLive(w, aux) && Movable(w, q, aux) && !w.queries[q].explicit &&
             w.queries[q].link in w.links
    requires w.queries[q].trans.Some?
    ensures var (ok, w1) := Rehome(w, q, w.queries[q].link, dflt, net); Inv(w1, aux) && Kept(w, w1, q)
  {
    hide Inv, DefTrans, Unenroll, Enroll, QueryOnLink;
    FreshAddress(w, aux);
    UnenrollKeeps(w, q, aux);
    UnenrollIs(w, q, aux);
    LeavesRoom(w, q, aux);
    MoveIn(Unenroll(w, q), q, w.queries[q].trans.value, dflt, net, aux);
    var (t, w1) := DefTrans(Unenroll(w, q), w.queries[q].link, dflt, net);
    KeptChain(w, Unenroll(w, q), if t.None? then w1 else Enroll(w1, q, t.value), q);
  }

  /** `t` is the default transaction of the query's link and has counted the query. */
  ghost predicate HasRoom(w: World, q: Addr, t: Addr) {
    Counted(w, q, t) && w.trans[t].isDefault && w.trans[t].link == Some(w.queries[q].link)
  }

  lemma LeavesRoom(w: World, q: Addr, aux: Option<Addr>)
    requires Inv(w, aux) && Movable(w, q, aux) && w.queries[q].trans.Some? && !w.queries[q].explicit
    ensures Unenroll(w, q).queries[q].isOpen ==> HasRoom(Unenroll(w, q), q, w.queries[q].trans.value)
  {
    hide Inv, Unenroll, QueryOnLink, Without, CountOk;
    QueryLive(w, q, aux);
    var (t, w1) := (w.queries[q].trans.value, Unenroll(w, q));
    LeftRegistry(w, q, t);
    if w.queries[q].isOpen {
      ImplicitDefault(w, q, t, aux);
      Counters(w, q, aux);
      var s := w.trans[t].queries;
      OpensWithout(w.queries, s, q);
      OpensLike(w.queries, w1.queries, Without(s, q));
      if !w.wrapped { CountOf(w, t); }
    }
  }

  /** A query without trans_res uses the default transaction of its link. */
  lemma ImplicitDefault(w: World, q: Addr, t: Addr, aux: Option<Addr>)
    requires Inv(w, aux) && q in w.queries && w.queries[q].trans == Some(t) && !w.queries[q].explicit && aux != Some(t)
    ensures t in w.trans && w.trans[t].isDefault && w.trans[t].link == Some(w.queries[q].link)
  {
    hide Inv;
    QueryLive(w, q, aux);
    LinkLive(w, t, aux);
  }

  lemma LeftRegistry(w: World, q: Addr, t: Addr)
    requires q in w.queries && w.queries[q].reg == Some(t) && t in w.trans
    ensures var r := Unenroll(w, q);
            && Same(r.trans, w.trans[t := w.trans[t].(queries := Without(w.trans[t].queries, q))])
            && Same(r.queries, w.queries[q := w.queries[q].(trans := None, reg := None)])
            && r.wrapped == w.wrapped && r.rules == w.rules
  {
    hide Without;
  }

  lemma CountOf(w: World, t: Addr)
    requires t in w.trans && CountOk(w.queries, w.trans[t], w.rules.strict)
    ensures Opens(w.queries, w.trans[t].queries) <= w.trans[t].count
  {}

  lemma MoveIn(w: World, q: Addr, t0: Addr, dflt: seq<Byte>, net: Net, aux: Option<Addr>)
    requires Inv(w, aux) && aux != Some(w.next) && q in w.queries
    requires w.queries[q].trans.None? && !w.queries[q].explicit && w.queries[q].link in w.links
    requires w.queries[q].isOpen ==> HasRoom(w, q, t0)
    ensures var (t, w1) := DefTrans(w, w.queries[q].link, dflt, net);
            var w2 := if t.None? then w1 else Enroll(w1, q, t.value);
            Inv(w2, aux) && Kept(w, w2, q)
  {
    hide Inv, DefTrans, Enroll, QueryOnLink;
    DefTransKeeps(w, w.queries[q].link, dflt, net, aux);
    var (t, w1) := DefTrans(w, w.queries[q].link, dflt, net);
    if t.Some? {
      if w.queries[q].isOpen { DefTransStays(w, w.queries[q].link, t0, dflt, net, aux); }
      EnrollKeeps(w1, q, t.value, aux);
      EnrollIs(w1, q, t.value);
      KeptChain(w, w1, Enroll(w1, q, t.value), q);
    }
  }

  lemma EnsureDefaultKeeps(w: World, q: Addr, dflt: seq<Byte>, net: Net, aux: Option<Addr>)
    requires Inv(w, aux) && AuxLive(w, aux) && Settled(w, q, aux)
    ensures Inv(EnsureDefault(w, q, dflt, net).1, aux) && Kept(w, EnsureDefault(w, q, dflt, net).1, q)
  {
    hide Inv, Rehome;
    QueryLive(w, q, aux);
    var qq := w.queries[q];
    if qq.trans.Some? {
      LinkLive(w, qq.trans.value, aux);
      if w.trans[qq.trans.value].handle.None? && !qq.explicit { RehomeKeeps(w, q, dflt, net, aux); }
    }
  }

  lemma DdlGateKeeps(w: World, q: Addr, net: Net, aux: Option<Addr>)
    requires Inv(w, aux) && q in w.queries && GateSafe(w, q)
    ensures Inv(DdlGate(w, q, net).1, aux) && Kept(w, DdlGate(w, q, net).1, q)
  {
    hide Inv, TryCommit, FreeHandle, Start;
    QueryLive(w, q, aux);
    if w.queries[q].trans.Some? {
      var t := w.queries[q].trans.value;
      LinkLive(w, t, aux);
      if w.trans[t].handle.Some? {
        CommitKeeps(w, t, net, aux);
        CommitIs(w, t, net);
        var w1 := TryCommit(w, t, net).1;
        FreeHandleKeeps(w1, t, aux);
        FreeHandleIs(w1, t);
        StartKeeps(FreeHandle(w1, t), t, net, aux);
      }
    }
  }

  lemma FreeHandleIs(w: World, t: Addr)
    requires t in w.trans
    ensures var r := FreeHandle(w, t);
            t in r.trans && r.trans[t].tpb == w.trans[t].tpb && r.trans[t].link == w.trans[t].link
  {}

  lemma CommitIs(w: World, t: Addr, net: Net)
    requires t in w.trans && w.trans[t].handle.Some?
    ensures var r := TryCommit(w, t, net).1; t in r.trans && r.trans[t].tpb == w.trans[t].tpb && r.trans[t].handle.Some?
  {}

  lemma AddWorkKeeps(w: World, t: Addr, kind: Kind, effect: Effect, aux: Option<Addr>)
    requires Inv(w, aux) && t in w.trans && w.trans[t].handle.Some?
    ensures Inv(AddWork(w, t, kind, effect), aux)
  {
    hide Inv, WorkOk;
    LinkLive(w, t, aux);
    var h := w.trans[t].handle.value;
    match kind {
      case Select => if effect.writes { MoreWorkKeeps(w, t, aux); }
      case Savepoint =>
        FlagsKeep(w, t, w.trans[t].(handle := Some(h.(pending := h.pending[..Min(effect.keep, |h.pending|)]))), aux);
      case _ => MoreWorkKeeps(w, t, aux);
    }
  }

  lemma MoreWorkKeeps(w: World, t: Addr, aux: Option<Addr>)
    requires Inv(w, aux) && t in w.trans && w.trans[t].handle.Some?
    ensures Inv(MoreWork(w, t), aux)
  {
    hide Inv, WorkOk;
    LinkLive(w, t, aux);
    var h := w.trans[t].handle.value;
    var tr := w.trans[t].(handle := Some(h.(pending := h.pending + [w.next])));
    AddAccounted(w, t, tr, aux);
    LargerKeeps(w, t, tr, aux);
  }

  lemma AddAccounted(w: World, t: Addr, tr: Trans, aux: Option<Addr>)
    requires Inv(w, aux) && t in w.trans && tr.handle.Some? && tr.handle.value.pending == Pending(w.trans, t) + [w.next]
    ensures WorkOk(w.trans[t := tr], w.durable, w.next + 1)
  {
    WorkAdds(w.trans, t, tr, w.durable, w.next);
  }

  lemma AddWorkIs(w: World, t: Addr, kind: Kind, effect: Effect)
    requires t in w.trans && w.trans[t].handle.Some?
    ensures var r := AddWork(w, t, kind, effect);
            && Same(r.queries, w.queries) && Same(r.links, w.links) && Same(r.batches, w.batches) &&
               r.trans.Keys == w.trans.Keys
            && r.rules == w.rules
  {}

  lemma LargerKeeps(w: World, t: Addr, tr: Trans, aux: Option<Addr>)
    requires Inv(w, aux) && t in w.trans && SamePlace(w.trans[t], tr)
    requires tr.handle.Some? ==> tr.link.Some? && (tr.exact ==> tr.handle.value.tpb == tr.tpb)
    requires WorkOk(w.trans[t := tr], w.durable, w.next + 1)
    ensures Inv(SetT(w, t, tr).(next := w.next + 1), aux)
  {
    hide Inv, Shape, WorkOk, Tallied;
    PartsOf(w, aux);
    ScalarTransShape(w.links, w.trans, w.queries, w.batches, w.stmts, t, tr, aux);
    TalliedLike(w.trans, w.trans[t := tr], w.queries, w.queries, w.rules.strict, w.wrapped);
    Rebuilt(w, w.trans[t := tr], w.queries, w.stmts, w.next + 1, w.wrapped, aux);
  }

  lemma RunKeeps(w: World, q: Addr, effect: Effect, net: Net, aux: Option<Addr>)
    requires Inv(w, aux) && q in w.queries
    ensures Inv(RunStatement(w, q, effect, net).1, aux) && Kept(w, RunStatement(w, q, effect, net).1, q)
    ensures RunStatement(w, q, effect, net).1.queries[q].trans == w.queries[q].trans
    ensures RunStatement(w, q, effect, net).0 ==> w.queries[q].trans.Some? && w.queries[q].stmt.Some?
  {
    hide Inv, AddWork, QueryOnLink, Kept;
    QueryLive(w, q, aux);
    RunKept(w, q, effect, net);
    var qq := w.queries[q];
    TickKeeps(w, aux);
    if qq.stmt.Some? && qq.trans.Some? && w.trans[qq.trans.value].handle.Some? {
      AddWorkKeeps(Tick(w), qq.trans.value, qq.kind, effect, aux);
      AddWorkIs(Tick(w), qq.trans.value, qq.kind, effect);
      var w2 := AddWork(Tick(w), qq.trans.value, qq.kind, effect);
      TickKeeps(w2, aux);
      TickKeeps(Tick(w2), aux);
      ScalarQuery(Tick(Tick(w2)), q, qq.(once := true), aux);
    }
  }

  /** Running a statement changes handles, work and one flag. */
  lemma RunKept(w: World, q: Addr, effect: Effect, net: Net)
    requires q in w.queries && (w.queries[q].trans.Some? ==> w.queries[q].trans.value in w.trans)
    requires w.queries[q].stmt.Some? ==> w.queries[q].stmt.value in w.stmts
    ensures var (ran, w1) := RunStatement(w, q, effect, net);
            && Kept(w, w1, q) && w1.queries[q].trans == w.queries[q].trans
            && (ran ==> w.queries[q].trans.Some? && w.queries[q].stmt.Some?)
  {
    hide AddWork, Kept, SameLayout;
    var qq := w.queries[q];
    SelfKept(w, q);
    if qq.trans.Some? && w.trans[qq.trans.value].handle.Some? {
      AddWorkKept(w, q, qq.trans.value, qq.kind, effect);
    }
  }

  lemma SelfKept(w: World, q: Addr)
    requires q in w.queries
    ensures Kept(w, w, q) && Kept(w, Tick(w), q)
  {}

  lemma AddWorkKept(w: World, q: Addr, t: Addr, kind: Kind, effect: Effect)
    requires q in w.queries && t in w.trans && w.trans[t].handle.Some?
    ensures var w2 := AddWork(Tick(w), t, kind, effect);
            && Same(w2.queries, w.queries) && Kept(w, w2, q) && Kept(w, Tick(w2), q) && Kept(w, Tick(Tick(w2)), q)
            && Kept(w, SetQ(Tick(Tick(w2)), q, w.queries[q].(once := true)), q)
  {
    AddWorkIs(Tick(w), t, kind, effect);
    hide AddWork;
  }

  // ------------------------------------------------------------ autocommit

  /** Closing cursors never ends a transaction. */
  lemma {:induction false} CloseCursorsKeeps(w: World, t: Addr, i: nat, end: nat, net: Net, aux: Option<Addr>)
    requires Inv(w, aux)
    ensures var w1 := CloseCursors(w, t, i, end, net).1;
            && Inv(w1, aux) && SameLayout(w, w1) && w1.queries.Keys == w.queries.Keys
            && (forall q :: q in w.queries ==> Kept(w, w1, q))
            && (forall u :: u in w.trans ==> w1.trans[u].handle == w.trans[u].handle)
    decreases end - i
  {
    hide Inv, Shut;
    if i < end {
      if i in w.queries && w.queries[i].isOpen && w.queries[i].trans == Some(t) {
        ShutKeeps(w, i, net, aux);
        ShutHandles(w, i, net, aux);
        FlagsKept(w, Shut(w, i, net), i);
        CloseCursorsKeeps(Shut(w, i, net), t, i + 1, end, net, aux);
      } else {
        CloseCursorsKeeps(w, t, i + 1, end, net, aux);
      }
    }
  }

  lemma ShutHandles(w: World, q: Addr, net: Net, aux: Option<Addr>)
    requires Inv(w, aux) && q in w.queries
    ensures forall u :: u in w.trans ==>
              u in Shut(w, q, net).trans && Shut(w, q, net).trans[u].handle == w.trans[u].handle
  {
    hide Inv, CursorClosed;
    CloseNeverReleases(w, q, net, aux);
  }

  lemma AutoCommitKeeps(w: World, t: Addr, retry: bool, net: Net, aux: Option<Addr>)
    requires Inv(w, aux) && t in w.trans && w.trans[t].handle.Some?
    ensures Inv(AutoCommit(w, t, retry, net), aux) && SameLayout(w, AutoCommit(w, t, retry, net))
    ensures forall q :: q in w.queries ==> Kept(w, AutoCommit(w, t, retry, net), q)
  {
    hide Inv, TryCommit, FreeHandle, CloseCursors, SameLayout, OnlyTrans, Kept;
    CommitKeeps(w, t, net, aux);
    CommitIs(w, t, net);
    var w1 := TryCommit(w, t, net).1;
    StaysKept(w, w1);
    DropAfter(w, w1, t, aux);
    if w1.trans[t].count > 0 { RetryKeeps(w, w1, t, net, aux); }
  }

  /** The layout and the queries are as they were but for cursor flags. */
  ghost predicate AllKept(w: World, w1: World) {
    SameLayout(w, w1) && w1.queries.Keys == w.queries.Keys && forall q :: q in w.queries ==> Kept(w, w1, q)
  }

  lemma StaysKept(w: World, w1: World)
    requires SameLayout(w, w1) && Same(w1.queries, w.queries)
    ensures AllKept(w, w1)
  {}

  lemma AllKeptChain(w: World, w1: World, w2: World)
    requires AllKept(w, w1) && AllKept(w1, w2)
    ensures AllKept(w, w2)
  {
    forall q | q in w.queries ensures Kept(w, w2, q) { KeptChain(w, w1, w2, q); }
  }

  lemma DropAfter(w: World, w1: World, t: Addr, aux: Option<Addr>)
    requires Inv(w1, aux) && t in w1.trans && AllKept(w, w1)
    ensures Inv(FreeHandle(w1, t), aux) && AllKept(w, FreeHandle(w1, t))
  {
    hide Inv, FreeHandle, SameLayout, OnlyTrans, AllKept;
    FreeHandleKeeps(w1, t, aux);
    StaysKept(w1, FreeHandle(w1, t));
    AllKeptChain(w, w1, FreeHandle(w1, t));
  }

  /** The second attempt, after the cursors have been closed. */
  lemma RetryKeeps(w: World, w1: World, t: Addr, net: Net, aux: Option<Addr>)
    requires Inv(w1, aux) && t in w1.trans && w1.trans[t].handle.Some? && AllKept(w, w1)
    ensures var (n, w2) := CloseCursors(w1, t, 0, w1.next, net);
            var r := FreeHandle(if n > 0 then TryCommit(w2, t, net).1 else w2, t);
            Inv(r, aux) && AllKept(w, r)
  {
    hide Inv, TryCommit, FreeHandle, CloseCursors, SameLayout, OnlyTrans, Kept, AllKept;
    CloseCursorsKeeps(w1, t, 0, w1.next, net, aux);
    var w2 := CloseCursors(w1, t, 0, w1.next, net).1;
    CursorsKept(w1, w2, t);
    AllKeptChain(w, w1, w2);
    DropAfter(w, w2, t, aux);
    CommitKeeps(w2, t, net, aux);
    CommitIs(w2, t, net);
    StaysKept(w2, TryCommit(w2, t, net).1);
    AllKeptChain(w, w2, TryCommit(w2, t, net).1);
    DropAfter(w, TryCommit(w2, t, net).1, t, aux);
  }

  lemma CursorsKept(w: World, w1: World, t: Addr)
    requires SameLayout(w, w1) && w1.queries.Keys == w.queries.Keys &&
             (forall q :: q in w.queries ==> Kept(w, w1, q)) && t in w.trans
    ensures AllKept(w, w1) && t in w1.trans
  {}

  lemma DdlAutocommitKeeps(w: World, q: Addr, net: Net, aux: Option<Addr>)
    requires Inv(w, aux) && q in w.queries
    ensures Inv(DdlAutocommit(w, q, net), aux) && Kept(w, DdlAutocommit(w, q, net), q)
    ensures !w.queries[q].kind.Ddl? ==> DdlAutocommit(w, q, net) == w
  {
    hide Inv, AutoCommit;
    QueryLive(w, q, aux);
    if w.queries[q].trans.Some? {
      var t := w.queries[q].trans.value;
      LinkLive(w, t, aux);
      if w.trans[t].handle.Some? { AutoCommitKeeps(w, t, true, net, aux); }
    }
  }

  // ------------------------------------------------------------ results

  ghost predicate IsChild(w: World, reply: Reply, q: Addr) {
    reply.Result? && reply.q != q && reply.q in w.queries && w.queries[reply.q].parent == Some(q)
  }

  /** What an execution may do to its own query: a shared result becomes its first child. */
  ghost predicate Executed(w: World, reply: Reply, w1: World, q: Addr) {
    && w1.links.Keys == w.links.Keys && Same(w1.batches, w.batches) && w.trans.Keys <= w1.trans.Keys &&
       w1.rules == w.rules
    && q in w.queries && q in w1.queries
    && SameIdentity(w.queries[q].(children := w1.queries[q].children), w1.queries[q])
    && w1.queries[q].children == if IsChild(w1, reply, q) then [reply.q] + w.queries[q].children
       else w.queries[q].children
  }

  lemma NoResult(w: World, reply: Reply, w1: World, q: Addr)
    requires Kept(w, w1, q) && !reply.Result?
    ensures Executed(w, reply, w1, q)
  {}

  lemma KeptExecuted(w: World, w1: World, reply: Reply, w2: World, q: Addr)
    requires Kept(w, w1, q) && Executed(w1, reply, w2, q)
    ensures Executed(w, reply, w2, q)
  {}

  lemma MakeResultKeeps(w: World, q: Addr, aux: Option<Addr>)
    requires Inv(w, aux) && q in w.queries && w.queries[q].trans.Some? && w.queries[q].stmt.Some?
    requires w.queries[q].kind.Select? || OneShot(w.queries[q].kind)
    ensures var (reply, w1) := MakeResult(w, q); Inv(w1, aux) && Executed(w, reply, w1, q)
  {
    hide Inv, NewQuery, CursorOpened, QueryOnLink;
    FreshAddress(w, aux);
    ColumnsMatch(w, q, aux);
    var r, t := ResultOf(w.queries[q], q), w.queries[q].trans.value;
    ResultFits(w, q, aux);
    NewQueryKeeps(w, t, r, aux);
    NewQueryIs(w, t, r);
    var w1 := NewQuery(w, t, r);
    OpenedKeeps(w1, w.next, aux);
    OpenedExecuted(w, w1, q, w.next, r.parent);
  }

  lemma ResultFits(w: World, q: Addr, aux: Option<Addr>)
    requires Inv(w, aux) && q in w.queries && w.queries[q].trans.Some? && w.queries[q].stmt.Some?
    ensures Newborn(w, ResultOf(w.queries[q], q))
    ensures Fits(w, w.queries[q].link, w.queries[q].explicit, w.queries[q].trans.value, aux)
  {
    hide Inv;
    ColumnsMatch(w, q, aux);
    QueryLive(w, q, aux);
  }

  lemma ColumnsMatch(w: World, q: Addr, aux: Option<Addr>)
    requires Inv(w, aux) && q in w.queries
    ensures w.queries[q].sqld == w.queries[q].columns <= MAX_COLUMNS
  {}

  /** Where a new query struct `r` with parent `p` has gone. */
  ghost predicate Arrived(w: World, w1: World, r: Addr, p: Option<Addr>) {
    && Same(w1.links, w.links) && Same(w1.batches, w.batches) && w1.trans.Keys == w.trans.Keys && w1.rules == w.rules
    && r in w1.queries && w1.queries[r].parent == p
    && forall x :: x in w.queries ==>
         && x in w1.queries
         && Same(w1.queries[x], if p == Some(x) then w.queries[x].(children := [r] + w.queries[x].children)
            else w.queries[x])
  }

  lemma NewQueryIs(w: World, t: Addr, qq: Query)
    requires t in w.trans && w.next !in w.queries && (qq.parent.Some? ==> qq.parent.value in w.queries)
    ensures Arrived(w, NewQuery(w, t, qq), w.next, qq.parent)
    ensures NewQuery(w, t, qq).queries[w.next].kind == qq.kind && NewQuery(w, t, qq).queries[w.next].stmt == qq.stmt
  {}

  lemma OpenedExecuted(w: World, w1: World, q: Addr, r: Addr, p: Option<Addr>)
    requires Arrived(w, w1, r, p) && q in w.queries && r !in w.queries && (p.Some? ==> p.value == q)
    ensures Executed(w, Result(r), CursorOpened(w1, r), q)
  {
    hide CursorOpened;
  }

  lemma ControlKeeps(w: World, q: Addr, net: Net, aux: Option<Addr>)
    requires Inv(w, aux) && AuxLive(w, aux) && q in w.queries && IsControl(w.queries[q].kind)
    requires w.queries[q].kind.SetTrans? ==> w.queries[q].link in w.links
    ensures var (reply, w1) := Control(w, q, net); Inv(w1, aux) && Executed(w, reply, w1, q)
  {
    hide Inv, Shut, SetTransaction, EndBySql;
    QueryLive(w, q, aux);
    var qq := w.queries[q];
    ErrorKeeps(w, q, net, aux);
    if qq.kind.SetTrans? { SetTransactionKeeps(w, q, qq.link, net, aux); }
    else if qq.trans.Some? { EndBySqlKeeps(w, q, qq.trans.value, qq.kind.CommitSql?, net, aux); }
  }

  lemma SetTransactionKeeps(w: World, q: Addr, l: Addr, net: Net, aux: Option<Addr>)
    requires Inv(w, aux) && AuxLive(w, aux) && q in w.queries && l in w.links
    ensures var (reply, w1) := SetTransaction(w, q, l, net); Inv(w1, aux) && Executed(w, reply, w1, q)
  {
    hide Inv, Shut, NewTrans, Executed, Kept;
    TickKeeps(w, aux);
    SelfKept(w, q);
    FinishPlainKeeps(w, Tick(w), Failure, q, net, aux);
    TransStarted(w, q, l, aux);
  }

  lemma TransStarted(w: World, q: Addr, l: Addr, aux: Option<Addr>)
    requires Inv(w, aux) && AuxLive(w, aux) && q in w.queries && l in w.links
    ensures var w1 := NewTrans(Tick(w), l, FreshTrans(l, false, [], true, Some(Handle([], [], false))));
            Inv(w1, aux) && Executed(w, NewTransaction(w.next), w1, q)
  {
    hide Inv;
    FreshAddress(w, aux);
    TickKeeps(w, aux);
    NewTransKeeps(Tick(w), l, FreshTrans(l, false, [], true, Some(Handle([], [], false))), aux);
  }

  lemma EndBySqlKeeps(w: World, q: Addr, t: Addr, commit: bool, net: Net, aux: Option<Addr>)
    requires Inv(w, aux) && q in w.queries && t in w.trans
    ensures var (reply, w1) := EndBySql(w, q, t, commit, net); Inv(w1, aux) && Executed(w, reply, w1, q)
  {
    hide Inv, TryCommit, TryRollback, FreeHandle, Shut, Executed;
    var (reply, w2) := EndBySql(w, q, t, commit, net);
    ErrorKeeps(w, q, net, aux);
    if w.trans[t].handle.Some? {
      CommitKeeps(w, t, net, aux);
      RollbackKeeps(w, t, net, aux);
      var w1 := if commit then TryCommit(w, t, net).1 else TryRollback(w, t, net).1;
      FreeHandleKeeps(w1, t, aux);
      ErrorKeeps(w1, q, net, aux);
    }
    assert Kept(w, w2, q);
    NoResult(w, reply, w2, q);
  }

  lemma FinishSelectKeeps(w: World, q: Addr, aux: Option<Addr>)
    requires Inv(w, aux) && q in w.queries && w.queries[q].trans.Some? && w.queries[q].stmt.Some? &&
             w.queries[q].kind.Select?
    ensures var (reply, w1) := FinishSelect(w, q); Inv(w1, aux) && Executed(w, reply, w1, q)
  {
    hide Inv, MakeResult, CursorOpened, SetMore;
    OpenedKeeps(w, q, aux);
    MoreKeeps(CursorOpened(w, q), q, true, aux);
    var w1 := SetMore(CursorOpened(w, q), q, true);
    FlagsKept(w, CursorOpened(w, q), q);
    FlagsKept(CursorOpened(w, q), w1, q);
    if w1.queries[q].columns > 0 {
      MakeResultKeeps(w1, q, aux);
      KeptExecuted(w, w1, MakeResult(w1, q).0, MakeResult(w1, q).1, q);
    }
  }

  lemma FinishKeeps(w: World, q: Addr, net: Net, aux: Option<Addr>)
    requires Inv(w, aux) && q in w.queries && w.queries[q].trans.Some? && w.queries[q].stmt.Some?
    ensures var (reply, w1) := Finish(w, q, net); Inv(w1, aux) && Executed(w, reply, w1, q)
  {
    hide Inv, DdlAutocommit, MakeResult, Shut, FinishSelect, Executed, Kept;
    DdlAutocommitKeeps(w, q, net, aux);
    if w.queries[q].kind.Select? { FinishSelectKeeps(w, q, aux); }
    else if OneShot(w.queries[q].kind) && w.queries[q].columns > 0 { MakeResultKeeps(w, q, aux); }
    else {
      var w1 := DdlAutocommit(w, q, net);
      KeptLive(w, w1, q);
      SelfKept(w1, q);
      KeptChain(w, w1, Tick(w1), q);
      TickKeeps(w1, aux);
      FinishPlainKeeps(w, w1, Done, q, net, aux);
      FinishPlainKeeps(w, Tick(w1), Finish(w, q, net).0, q, net, aux);
    }
  }

  /** A statement without a result is closed. */
  lemma FinishPlainKeeps(w: World, w1: World, reply: Reply, q: Addr, net: Net, aux: Option<Addr>)
    requires Inv(w1, aux) && Kept(w, w1, q) && !reply.Result?
    ensures Inv(Shut(w1, q, net), aux) && Executed(w, reply, Shut(w1, q, net), q)
  {
    hide Inv, Shut, Executed, Kept;
    KeptLive(w, w1, q);
    ErrorKeeps(w1, q, net, aux);
    KeptChain(w, w1, Shut(w1, q, net), q);
    NoResult(w, reply, Shut(w1, q, net), q);
  }

  // ------------------------------------------------------------ whole executions

  /** What binding reads through bare pointers: the bind buffer of a statement with parameters, and the link
      when a BLOB or an array is bound by value. */
  predicate Bindable(w: World, q: Addr, input: Input) {
    q in w.queries &&
    var qq := w.queries[q];
    qq.inputs > 0 ==> qq.canBind && (input.byValue ==> qq.link in w.links)
  }

  /** DDL on a started transaction of the caller's asks its link whether to commit first. */
  predicate AsksLink(w: World, q: Addr) {
    q in w.queries &&
    var qq := w.queries[q];
    qq.kind.Ddl? && qq.explicit && qq.trans.Some? && qq.trans.value in w.trans && w.trans[qq.trans.value].handle.Some?
  }

  predicate GateSafe(w: World, q: Addr) { AsksLink(w, q) ==> w.queries[q].link in w.links }

  /** What an execution reads: what binding does, and the link of SET TRANSACTION and of DDL. */
  predicate Executable(w: World, q: Addr, input: Input) {
    q in w.queries &&
    var qq := w.queries[q];
    input.args >= qq.inputs ==>
      && (qq.kind.SetTrans? ==> qq.link in w.links)
      && (!IsControl(qq.kind) ==> Bindable(w, q, input))
      && (Bind(w, q, input).0 ==> GateSafe(w, q))
  }

  lemma BindIs(w: World, q: Addr, input: Input, aux: Option<Addr>)
    requires Inv(w, aux) && q in w.queries && w.queries[q].inputs <= input.args && !IsControl(w.queries[q].kind)
    ensures Bindable(w, q, input) ==> Bind(w, q, input).1 == w
    ensures !Bindable(w, q, input) ==> Bind(w, q, input) == (false, Fault(w))
  {
    hide Inv, QueryOnLink;
    QueryLive(w, q, aux);
  }

  /** Starting the default transaction again concerns no explicit one. */
  lemma StaysSafe(w: World, q: Addr, dflt: seq<Byte>, net: Net, aux: Option<Addr>)
    requires Inv(w, aux) && q in w.queries && GateSafe(w, q) && Kept(w, EnsureDefault(w, q, dflt, net).1, q)
    ensures GateSafe(EnsureDefault(w, q, dflt, net).1, q)
  {
    hide Inv, Rehome, QueryOnLink;
    QueryLive(w, q, aux);
  }

  /** Closing the cursor of an earlier execution changes nothing that an execution reads. */
  lemma ReexecExecutable(w: World, q: Addr, input: Input, net: Net, aux: Option<Addr>)
    requires Inv(w, aux) && q in w.queries
    ensures Executable(CloseForReexec(w, q, net), q, input) == Executable(w, q, input)
  {
    hide Inv, Shut, QueryOnLink;
    QueryLive(w, q, aux);
    ReexecKeeps(w, q, net, aux);
    ShutHandles(w, q, net, aux);
  }

  lemma ExecPlainKeeps(w: World, q: Addr, input: Input, net: Net, aux: Option<Addr>)
    requires Inv(w, aux) && AuxLive(w, aux) && q in w.queries
    requires Bind(w, q, input).1 == w && (Bind(w, q, input).0 ==> Settled(w, q, aux) && GateSafe(w, q))
    ensures var (reply, w1) := ExecPlain(w, q, input, net); Inv(w1, aux) && Executed(w, reply, w1, q)
  {
    hide Inv, Bind, EnsureDefault, DdlGate, RunStatement, Finish, Shut, Executed, Kept;
    var (reply, w5) := ExecPlain(w, q, input, net);
    ErrorKeeps(w, q, net, aux);
    if !Bind(w, q, input).0 { NoResult(w, reply, w5, q); return; }
    EnsureDefaultKeeps(w, q, input.dflt, net, aux);
    var (live, w2) := EnsureDefault(w, q, input.dflt, net);
    if !live { NoResult(w, reply, w5, q); return; }
    KeptLive(w, w2, q);
    StaysSafe(w, q, input.dflt, net, aux);
    DdlGateKeeps(w2, q, net, aux);
    var (gate, w3) := DdlGate(w2, q, net);
    KeptChain(w, w2, w3, q);
    KeptLive(w, w3, q);
    if !gate { Failed(w, w3, q, net, aux); return; }
    RunKeeps(w3, q, input.effect, net, aux);
    var (ran, w4) := RunStatement(w3, q, input.effect, net);
    KeptChain(w, w3, w4, q);
    KeptLive(w3, w4, q);
    if !ran { Failed(w, w4, q, net, aux); return; }
    FinishKeeps(w4, q, net, aux);
    KeptExecuted(w, w4, reply, w5, q);
  }

  lemma KeptLive(w: World, w1: World, q: Addr)
    requires Kept(w, w1, q)
    ensures q in w1.queries && w1.queries[q].stmt == w.queries[q].stmt
  {}

  lemma Failed(w: World, w1: World, q: Addr, net: Net, aux: Option<Addr>)
    requires Inv(w1, aux) && Kept(w, w1, q)
    ensures Inv(Shut(w1, q, net), aux) && Executed(w, Failure, Shut(w1, q, net), q)
  {
    hide Inv, Shut, Executed;
    ErrorKeeps(w1, q, net, aux);
    KeptChain(w, w1, Shut(w1, q, net), q);
    NoResult(w, Failure, Shut(w1, q, net), q);
  }

  lemma WholeExecKeeps(w: World, q: Addr, input: Input, net: Net, aux: Option<Addr>)
    requires Inv(w, aux) && AuxLive(w, aux) && Executable(w, q, input)
    requires input.args >= w.queries[q].inputs && w.queries[q].kind.Procedure? && Bind(w, q, input).0 ==>
               Settled(w, q, aux)
    ensures var (reply, w1) := Exec(w, q, input, net); Inv(w1, aux) && Executed(w, reply, w1, q)
  {
    hide Inv, CloseForReexec, Control, ExecPlain, Executed, Bind;
    var (reply, w2) := Exec(w, q, input, net);
    if input.args < w.queries[q].inputs { NoResult(w, reply, w2, q); return; }
    ReexecKeeps(w, q, net, aux);
    ReexecExecutable(w, q, input, net, aux);
    var w1 := CloseForReexec(w, q, net);
    if IsControl(w.queries[q].kind) { ControlKeeps(w1, q, net, aux); }
    else {
      BindIs(w1, q, input, aux);
      ExecPlainKeeps(w1, q, input, net, aux);
    }
    KeptExecuted(w, w1, reply, w2, q);
  }

  // ------------------------------------------------------------ one-shot calls

  lemma SettleKeeps(w: World, q: Addr, reply: Reply, net: Net, aux: Option<Addr>)
    requires Inv(w, aux) && q in w.queries && w.queries[q].owns && w.queries[q].stmt.Some?
    requires w.queries[q].children == if IsChild(w, reply, q) then [reply.q] else []
    ensures Inv(Settle(w, q, reply, net), aux) && Settle(w, q, reply, net).rules == w.rules
  {
    hide Inv, FreeQuery, Transfer, CursorClosed;
    FreeQueryKeeps(w, q, net, aux);
    if IsChild(w, reply, q) {
      TransferKeeps(w, q, reply.q, aux);
      TransferIs(w, q, reply.q);
      ClosedKeeps(Transfer(w, q, reply.q), q, net, aux);
      FreeQueryKeeps(CursorClosed(Transfer(w, q, reply.q), q, net), q, net, aux);
    }
  }

  lemma TransferIs(w: World, q: Addr, r: Addr)
    requires q in w.queries && r in w.queries
    ensures Transfer(w, q, r).queries.Keys == w.queries.Keys && Transfer(w, q, r).rules == w.rules
  {}

  lemma QueryAutocommitKeeps(w: World, q: Addr, l: Addr, t: Addr, explicit: bool, reply: Reply, net: Net,
                             aux: Option<Addr>)
    requires Inv(w, aux) && l in w.links && q in w.queries && t in w.trans
    ensures Inv(QueryAutocommit(w, q, l, t, explicit, reply, net), aux)
    ensures SameLayout(w, QueryAutocommit(w, q, l, t, explicit, reply, net))
    ensures reply.Result? ==> QueryAutocommit(w, q, l, t, explicit, reply, net) == w
    ensures Kept(w, QueryAutocommit(w, q, l, t, explicit, reply, net), q)
  {
    hide Inv, AutoCommit;
    if w.trans[t].handle.Some? { AutoCommitKeeps(w, t, w.queries[q].kind.Ddl?, net, aux); }
  }

  lemma RunOnceKeeps(w: World, l: Addr, t: Addr, explicit: bool, kind: Kind, form: Form, input: Input, net: Net,
                     aux: Option<Addr>)
    requires Inv(w, aux) && AuxLive(w, aux) && l in w.links && Fits(w, l, explicit, t, aux)
    ensures var w1 := RunOnce(w, l, t, explicit, kind, form, input, net); Inv(w1, aux) && w1.rules == w.rules
  {
    hide Inv, Prepare, Exec, FreeQuery, Settle, QueryAutocommit;
    PrepareKeeps(w, l, t, explicit, kind, form, net, aux);
    var (q, w1) := Prepare(w, l, t, explicit, kind, form, net);
    if q.Some? {
      WholeExecKeeps(w1, q.value, input, net, aux);
      var (reply, w2) := Exec(w1, q.value, input, net);
      FreeQueryKeeps(w2, q.value, net, aux);
      QueryAutocommitKeeps(w2, q.value, l, t, explicit, reply, net, aux);
      var w3 := QueryAutocommit(w2, q.value, l, t, explicit, reply, net);
      if !reply.Failure? { SettleKeeps(w3, q.value, reply, net, aux); }
    }
  }

  /** The transaction of fbird_execute_auto stays where it is until the call is over. */
  lemma AutoEnds(w: World, t: Addr, commit: bool, net: Net)
    requires Inv(w, Some(t)) && t in w.trans
    ensures var w1 := DetachAndFree(EndAndDrop(w, t, true, commit, net), t);
            Inv(w1, None) && w1.rules == w.rules && t !in w1.trans
  {
    hide Inv, EndAndDrop, DetachAndFree;
    EndAndDropKeeps(w, t, true, commit, net, Some(t));
    AuxNotDefault(EndAndDrop(w, t, true, commit, net), t);
    FreeUnlisted(EndAndDrop(w, t, true, commit, net), t, Some(t), None);
    DetachGone(EndAndDrop(w, t, true, commit, net), t, None);
  }

  lemma AuxNotDefault(w: World, t: Addr)
    requires Inv(w, Some(t)) && t in w.trans
    ensures !w.trans[t].isDefault
  {
    assert TransOnLink(w.links, w.trans[t], t, Some(t));
  }

  lemma ExecuteAutoKeeps(w: World, l: Addr, kind: Kind, form: Form, input: Input, net: Net)
    requires Inv(w, None) && l in w.links
    ensures var w1 := ExecuteAuto(w, l, kind, form, input, net);
            Inv(w1, None) && w1.rules == w.rules && (net(w.tick) ==> w.next !in w1.trans)
  {
    hide Inv, Prepare, Exec, FreeQuery, DetachAndFree, EndAndDrop;
    TickKeeps(w, None);
    var t := w.next;
    var tr := FreshTrans(l, false, [], true, Some(Handle([], [], false)));
    AuxKeeps(Tick(w), l, t, tr);
    var w0 := Tick(w).(trans := w.trans[t := tr], next := t + 1);
    PrepareKeeps(w0, l, t, false, kind, form, net, Some(t));
    var (q, w1) := Prepare(w0, l, t, false, kind, form, net);
    AutoEnds(w1, t, false, net);
    if q.Some? { AutoRunKeeps(w1, q.value, t, input, net); }
  }

  /** The second half of fbird_execute_auto, on its own transaction `t`. */
  lemma AutoRunKeeps(w: World, q: Addr, t: Addr, input: Input, net: Net)
    requires Inv(w, Some(t)) && t in w.trans && Executable(w, q, input) && w.queries[q].stmt.Some? &&
             !w.queries[q].isOpen
    ensures var (reply, w2) := Exec(w, q, input, net);
            var w3 := DetachAndFree(EndAndDrop(FreeQuery(w2, q, net), t, true, reply.Done?, net), t);
            Inv(w3, None) && w3.rules == w.rules && t !in w3.trans
  {
    hide Inv, Exec, FreeQuery, DetachAndFree, EndAndDrop;
    WholeExecKeeps(w, q, input, net, Some(t));
    var (reply, w2) := Exec(w, q, input, net);
    FreeQueryKeeps(w2, q, net, Some(t));
    AutoEnds(FreeQuery(w2, q, net), t, reply.Done?, net);
  }

  // ------------------------------------------------------------ fetching

  lemma ExhaustKeeps(w: World, q: Addr, net: Net, aux: Option<Addr>)
    requires Inv(w, aux) && q in w.queries
    ensures Inv(Exhaust(w, q, net), aux)
  {
    hide Inv, CursorClosed, SetMore;
    MoreKeeps(w, q, false, aux);
    ClosedKeeps(SetMore(w, q, false), q, net, aux);
  }

  lemma CursorKeeps(w: World, q: Addr, net: Net, aux: Option<Addr>)
    requires Inv(w, aux) && q in w.queries
    ensures var w1 := FetchCursor(w, q, net).1;
            Inv(w1, aux) && SameLayout(w, w1) && OnlyFlags(w.queries, w1.queries, q)
  {
    hide Inv, Exhaust;
    QueryLive(w, q, aux);
    ExhaustKeeps(w, q, net, aux);
    TickKeeps(w, aux);
    TickKeeps(Tick(w), aux);
    ExhaustKeeps(Tick(Tick(w)), q, net, aux);
  }

  /** The first column whose contents are asked is read through the link; an array also needs a transaction. */
  predicate Readable(w: World, q: Addr, contents: seq<Column>) {
    contents != [] && q in w.queries ==>
      w.queries[q].link in w.links && (contents[0].ArrayColumn? ==> w.queries[q].trans.Some?)
  }

  lemma {:induction false} ContentsKeep(w: World, q: Addr, contents: seq<Column>, net: Net, aux: Option<Addr>)
    requires Inv(w, aux) && q in w.queries && Readable(w, q, contents)
    ensures Inv(ReadContents(w, q, contents, net), aux)
    decreases contents
  {
    hide Inv, QueryOnLink;
    QueryLive(w, q, aux);
    TickKeeps(w, aux);
    if contents != [] && w.queries[q].trans.Some? { ContentsKeep(Tick(w), q, contents[1..], net, aux); }
  }

  /** When the server may have a row to deliver. */
  predicate RowPossible(qq: Query) {
    qq.more && qq.isOpen && qq.columns > 0 && (Buffered(qq) || qq.stmt.Some?)
  }

  lemma FetchKeeps(w: World, q: Addr, contents: seq<Column>, net: Net, aux: Option<Addr>)
    requires Inv(w, aux) && q in w.queries && (RowPossible(w.queries[q]) ==> Readable(w, q, contents))
    ensures Inv(Fetch(w, q, contents, net), aux) && Fetch(w, q, contents, net).rules == w.rules
  {
    hide Inv, FetchCursor;
    CursorKeeps(w, q, net, aux);
    RowOnly(w, q, net);
    var (row, w1) := FetchCursor(w, q, net);
    if row { ContentsKeep(w1, q, contents, net, aux); }
  }

  lemma RowOnly(w: World, q: Addr, net: Net)
    requires q in w.queries
    ensures FetchCursor(w, q, net).0 ==> RowPossible(w.queries[q])
  {}
}
