/** The functions of Transactions keep the invariant. */
module TransactionsKeep {
  import opened State
  import opened Transactions
  import opened Invariant

  // ------------------------------------------------------------ work accounting

  /** Pending work of `t` replaced by some of what it had: rollback, a freed handle, a fresh start. */
  lemma WorkShrinks(T: map<Addr, Trans>, t: Addr, tr: Trans, durable: seq<Work>, next: nat)
    requires WorkOk(T, durable, next) && t in T
    requires tr.handle.Some? ==>
               NoDup(tr.handle.value.pending) && forall x :: x in tr.handle.value.pending ==> x in Pending(T, t)
    ensures WorkOk(T[t := tr], durable, next)
  {
    var R := T[t := tr];
    forall u | u in R ensures Numbered(Pending(R, u), next) && Apart(Pending(R, u), durable) {
      assert Numbered(Pending(T, u), next) && Apart(Pending(T, u), durable);
    }
    forall u, v | u in R && v in R && u != v ensures Apart(Pending(R, u), Pending(R, v)) {
      assert Apart(Pending(T, u), Pending(T, v));
    }
  }

  /** Pending work of `t` becomes durable. */
  lemma WorkCommits(T: map<Addr, Trans>, t: Addr, tr: Trans, durable: seq<Work>, next: nat)
    requires WorkOk(T, durable, next) && t in T && (tr.handle.Some? ==> tr.handle.value.pending == [])
    ensures WorkOk(T[t := tr], durable + Pending(T, t), next)
  {
    var R, P := T[t := tr], Pending(T, t);
    assert Numbered(P, next) && Apart(P, durable);
    NumberedConcat(durable, P, next);
    forall u | u in R ensures Numbered(Pending(R, u), next) && Apart(Pending(R, u), durable + P) {
      if u != t { assert Numbered(Pending(T, u), next) && Apart(Pending(T, u), durable) && Apart(Pending(T, u), P); }
    }
    forall u, v | u in R && v in R && u != v ensures Apart(Pending(R, u), Pending(R, v)) {
      assert Apart(Pending(T, u), Pending(T, v));
    }
  }

  lemma NumberedConcat(a: seq<Work>, b: seq<Work>, next: nat)
    requires Numbered(a, next) && Numbered(b, next) && Apart(b, a)
    ensures Numbered(a + b, next)
  {
    var c := a + b;
    forall i, j | 0 <= i < j < |c| ensures c[i] != c[j] {
      if i < |a| <= j { assert b[j - |a|] in b && a[i] in a; }
    }
  }

  /** New work, numbered `next`, joins the pending work of `t`. */
  lemma WorkAdds(T: map<Addr, Trans>, t: Addr, tr: Trans, durable: seq<Work>, next: nat)
    requires WorkOk(T, durable, next) && t in T && tr.handle.Some? && tr.handle.value.pending == Pending(T, t) + [next]
    ensures WorkOk(T[t := tr], durable, next + 1)
  {
    var R := T[t := tr];
    assert Numbered([next], next + 1);
    forall u | u in R ensures Numbered(Pending(R, u), next + 1) && Apart(Pending(R, u), durable) {
      assert Numbered(Pending(T, u), next) && Apart(Pending(T, u), durable);
      if u == t { NumberedConcat(Pending(T, t), [next], next + 1); }
    }
    forall u, v | u in R && v in R && u != v ensures Apart(Pending(R, u), Pending(R, v)) {
      assert Apart(Pending(T, u), Pending(T, v)) && Numbered(Pending(T, u), next) && Numbered(Pending(T, v), next);
    }
  }

  lemma WorkWith(T: map<Addr, Trans>, t: Addr, tr: Trans, durable: seq<Work>, next: nat)
    requires WorkOk(T, durable, next) && t !in T && (tr.handle.Some? ==> tr.handle.value.pending == [])
    ensures WorkOk(T[t := tr], durable, next + 1)
  {
    var R := T[t := tr];
    forall u | u in R ensures Numbered(Pending(R, u), next + 1) && Apart(Pending(R, u), durable) {
      if u != t { assert Numbered(Pending(T, u), next) && Apart(Pending(T, u), durable); }
    }
    forall u, v | u in R && v in R && u != v ensures Apart(Pending(R, u), Pending(R, v)) {
      if u != t && v != t { assert Apart(Pending(T, u), Pending(T, v)); }
    }
  }

  // ------------------------------------------------------------ server calls

  lemma TickKeeps(w: World, aux: Option<Addr>)
    requires Inv(w, aux)
    ensures Inv(Tick(w), aux)
  {}

  lemma LinkLive(w: World, t: Addr, aux: Option<Addr>)
    requires Inv(w, aux) && t in w.trans
    ensures w.trans[t].link.Some? ==> w.trans[t].link.value in w.links
    ensures w.trans[t].handle.Some? || w.trans[t].isDefault || aux == Some(t) ==> w.trans[t].link.Some?
    ensures w.trans[t].handle.Some? && w.trans[t].exact ==> w.trans[t].handle.value.tpb == w.trans[t].tpb
    ensures NoDup(Pending(w.trans, t))
  {
    assert TransOnLink(w.links, w.trans[t], t, aux);
    assert Numbered(Pending(w.trans, t), w.next);
  }

  /** Any change of counters and flags, of the handle's locks, or a handle with less pending work. */
  lemma FlagsKeep(w: World, t: Addr, tr: Trans, aux: Option<Addr>)
    requires Inv(w, aux) && t in w.trans && SamePlace(w.trans[t], tr)
    requires tr.handle.Some? ==> tr.link.Some? && (tr.exact ==> tr.handle.value.tpb == tr.tpb)
    requires tr.handle.Some? ==> tr.handle.value.pending <= Pending(w.trans, t)
    ensures Inv(SetT(w, t, tr), aux)
  {
    if tr.handle.Some? {
      LinkLive(w, t, aux);
      var p := Pending(w.trans, t);
      assert forall i :: 0 <= i < |tr.handle.value.pending| ==> tr.handle.value.pending[i] == p[i];
    }
    WorkShrinks(w.trans, t, tr, w.durable, w.next);
    ScalarTrans(w, t, tr, aux);
  }

  lemma CommitKeeps(w: World, t: Addr, net: Net, aux: Option<Addr>)
    requires Inv(w, aux) && t in w.trans && w.trans[t].handle.Some?
    ensures Inv(TryCommit(w, t, net).1, aux)
  {
    hide Inv, WorkOk;
    TickKeeps(w, aux);
    if net(w.tick) {
      var tr := w.trans[t].(handle := Some(w.trans[t].handle.value.(pending := [])));
      LinkLive(w, t, aux);
      FlagsKeep(w, t, tr, aux);
      CommitAccounted(w, t, tr, aux);
      MoreDurable(SetT(w, t, tr), w.durable + w.trans[t].handle.value.pending, aux);
    }
  }

  lemma CommitAccounted(w: World, t: Addr, tr: Trans, aux: Option<Addr>)
    requires Inv(w, aux) && t in w.trans && (tr.handle.Some? ==> tr.handle.value.pending == [])
    ensures WorkOk(w.trans[t := tr], w.durable + Pending(w.trans, t), w.next)
  {
    WorkCommits(w.trans, t, tr, w.durable, w.next);
  }

  lemma MoreDurable(w: World, durable: seq<Work>, aux: Option<Addr>)
    requires Inv(w, aux) && WorkOk(w.trans, durable, w.next)
    ensures Inv(Tick(w).(durable := durable), aux)
  {}

  lemma RollbackKeeps(w: World, t: Addr, net: Net, aux: Option<Addr>)
    requires Inv(w, aux) && t in w.trans && w.trans[t].handle.Some?
    ensures Inv(TryRollback(w, t, net).1, aux)
  {
    hide Inv;
    TickKeeps(w, aux);
    LinkLive(w, t, aux);
    FlagsKeep(Tick(w), t, w.trans[t].(handle := Some(w.trans[t].handle.value.(pending := []))), aux);
  }

  lemma KeepLocksKeeps(w: World, t: Addr, aux: Option<Addr>)
    requires Inv(w, aux) && t in w.trans && w.trans[t].handle.Some?
    ensures Inv(KeepLocks(w, t), aux)
  {
    hide Inv;
    LinkLive(w, t, aux);
    FlagsKeep(w, t, w.trans[t].(handle := Some(w.trans[t].handle.value.(locks := true))), aux);
  }

  lemma FreeHandleKeeps(w: World, t: Addr, aux: Option<Addr>)
    requires Inv(w, aux) && t in w.trans
    ensures Inv(FreeHandle(w, t), aux)
  {
    FlagsKeep(w, t, w.trans[t].(handle := None), aux);
  }

  /** A start with the stored block. */
  lemma StartKeeps(w: World, t: Addr, net: Net, aux: Option<Addr>)
    requires Inv(w, aux) && t in w.trans && w.trans[t].link.Some?
    ensures Inv(Start(w, t, w.trans[t].tpb, net).1, aux)
  {
    hide Inv;
    TickKeeps(w, aux);
    FlagsKeep(Tick(w), t, w.trans[t].(handle := Some(Handle(w.trans[t].tpb, [], false))), aux);
  }

  lemma RestartKeeps(w: World, t: Addr, net: Net, aux: Option<Addr>)
    requires Inv(w, aux) && t in w.trans
    ensures Inv(RestartFromTpb(w, t, net).1, aux)
  {
    hide Inv;
    LinkLive(w, t, aux);
    TickKeeps(w, aux);
    if w.trans[t].link.Some? && net(w.tick) {
      StartKeeps(Tick(w), t, net, aux);
      var (ok, w1) := Start(Tick(w), t, w.trans[t].tpb, net);
      if ok { FlagsKeep(w1, t, w1.trans[t].(retain := false), aux); }
    }
  }

  lemma CommitRestartKeeps(w: World, t: Addr, net: Net, aux: Option<Addr>)
    requires Inv(w, aux) && t in w.trans && w.trans[t].handle.Some?
    ensures Inv(CommitRestart(w, t, net).1, aux)
  {
    hide Inv;
    LinkLive(w, t, aux);
    CommitKeeps(w, t, net, aux);
    var (ok, w1) := TryCommit(w, t, net);
    if ok {
      FreeHandleKeeps(w1, t, aux);
      RestartKeeps(FreeHandle(w1, t), t, net, aux);
    }
  }

  lemma RollbackRestartKeeps(w: World, t: Addr, net: Net, aux: Option<Addr>)
    requires Inv(w, aux) && t in w.trans && w.trans[t].handle.Some?
    ensures Inv(RollbackRestart(w, t, net).1, aux)
  {
    hide Inv;
    LinkLive(w, t, aux);
    RollbackKeeps(w, t, net, aux);
    var (ok, w1) := TryRollback(w, t, net);
    if ok {
      FreeHandleKeeps(w1, t, aux);
      StartKeeps(FreeHandle(w1, t), t, net, aux);
    }
  }

  lemma ReleaseKeeps(w: World, t: Addr, net: Net, aux: Option<Addr>)
    requires Inv(w, aux) && t in w.trans
    ensures Inv(ReleaseIfIdle(w, t, net), aux)
  {
    hide Inv;
    if Idle(w.trans[t]) {
      LinkLive(w, t, aux);
      FlagsKeep(w, t, w.trans[t].(retain := false), aux);
      CommitRestartKeeps(SetT(w, t, w.trans[t].(retain := false)), t, net, aux);
    }
  }

  lemma EndAndDropKeeps(w: World, t: Addr, act: bool, commit: bool, net: Net, aux: Option<Addr>)
    requires Inv(w, aux) && t in w.trans
    ensures Inv(EndAndDrop(w, t, act, commit, net), aux)
  {
    hide Inv;
    if w.trans[t].handle.Some? {
      if act && commit { CommitKeeps(w, t, net, aux); }
      if act && !commit { RollbackKeeps(w, t, net, aux); }
      FreeHandleKeeps(if !act then w else if commit then TryCommit(w, t, net).1 else TryRollback(w, t, net).1, t, aux);
    }
  }

  lemma RetainingKeeps(w: World, t: Addr, net: Net, aux: Option<Addr>)
    requires Inv(w, aux) && t in w.trans && w.trans[t].handle.Some?
    ensures Inv(TryCommitRetaining(w, t, net).1, aux) && t in TryCommitRetaining(w, t, net).1.trans
    ensures Inv(TryRollbackRetaining(w, t, net).1, aux) && t in TryRollbackRetaining(w, t, net).1.trans
  {
    hide Inv;
    CommitKeeps(w, t, net, aux);
    RollbackKeeps(w, t, net, aux);
    if net(w.tick) {
      KeepLocksKeeps(TryCommit(w, t, net).1, t, aux);
      KeepLocksKeeps(TryRollback(w, t, net).1, t, aux);
    }
  }

  lemma EndSwitchKeeps(w: World, t: Addr, mode: Mode, net: Net, aux: Option<Addr>)
    requires Inv(w, aux) && t in w.trans && w.trans[t].handle.Some?
    ensures Inv(EndSwitch(w, t, mode, net).1, aux) && t in EndSwitch(w, t, mode, net).1.trans
  {
    hide Inv, TryCommitRetaining, TryRollbackRetaining, CommitRestart, RollbackRestart;
    match mode {
      case Rollback => RollbackKeeps(w, t, net, aux);
      case Commit => CommitKeeps(w, t, net, aux);
      case RollbackRet =>
        RetainingKeeps(w, t, net, aux);
        RollbackRestartKeeps(w, t, net, aux);
      case CommitRet =>
        RetainingKeeps(w, t, net, aux);
        CommitRestartKeeps(w, t, net, aux);
        var w1 := TryCommitRetaining(w, t, net).1;
        LinkLive(w1, t, aux);
        FlagsKeep(w1, t, w1.trans[t].(retain := true), aux);
    }
  }

  lemma RestartIs(w: World, t: Addr, net: Net)
    requires t in w.trans
    ensures var (ok, w1) := RestartFromTpb(w, t, net); t in w1.trans && (ok ==> w1.trans[t].handle.Some?)
  {}

  lemma TransEndKeeps(w: World, t: Addr, mode: Mode, net: Net, aux: Option<Addr>)
    requires Inv(w, aux) && t in w.trans
    ensures Inv(TransEnd(w, t, mode, net).1, aux)
  {
    hide Inv, EndSwitch, RestartFromTpb;
    RestartKeeps(w, t, net, aux);
    RestartIs(w, t, net);
    if !(w.trans[t].handle.None? && w.trans[t].isDefault) {
      var (ready, w1) := if w.trans[t].handle.None? then RestartFromTpb(w, t, net) else (true, w);
      if ready {
        EndSwitchKeeps(w1, t, mode, net, aux);
        var w2 := EndSwitch(w1, t, mode, net).1;
        FlagsKeep(w2, t, w2.trans[t].(handle := None, retain := false), aux);
      }
    }
  }

  // ------------------------------------------------------------ cursors

  lemma QueryLive(w: World, q: Addr, aux: Option<Addr>)
    requires Inv(w, aux) && q in w.queries
    ensures w.queries[q].reg == w.queries[q].trans
    ensures w.queries[q].trans.Some? ==>
              && w.queries[q].trans.value in w.trans && q in w.trans[w.queries[q].trans.value].queries
              && QueryOnLink(w.trans, w.queries[q], aux)
    ensures w.queries[q].parent.Some? ==> w.queries[q].parent.value in w.queries
    ensures w.queries[q].stmt.Some? ==> w.queries[q].stmt.value in w.stmts
  {
    assert QueryEnrolled(w.trans, w.queries[q], q);
    assert ParentOk(w.queries, w.queries[q], q);
    assert HoldsLive(w.queries[q], w.stmts);
    assert QueryOnLink(w.trans, w.queries[q], aux);
  }

  lemma OpenedKeeps(w: World, q: Addr, aux: Option<Addr>)
    requires Inv(w, aux) && q in w.queries && (w.queries[q].kind.Select? || w.queries[q].stmt.None?)
    ensures Inv(CursorOpened(w, q), aux)
  {
    hide Inv, Shape, WorkOk, Tallied, QueryOnLink, CursorOpened;
    PartsOf(w, aux);
    QueryLive(w, q, aux);
    var qq := w.queries[q].(isOpen := true);
    OpenedIs(w, q);
    if !w.queries[q].isOpen {
      OpenedTally(w, q, aux);
      if w.queries[q].trans.None? {
        ScalarQueryShape(w.links, w.trans, w.queries, w.batches, w.stmts, q, qq, aux);
      } else {
        var t := w.queries[q].trans.value;
        var c := w.trans[t].count + 1;
        FlagAndCount(w, q, qq, t, if c < COUNTER_LIMIT then c else 0, aux);
      }
      var w1 := CursorOpened(w, q);
      Rebuilt(w, w1.trans, w1.queries, w.stmts, w.next, w1.wrapped, aux);
    }
  }

  /** What opening a cursor leaves. */
  lemma OpenedIs(w: World, q: Addr)
    requires q in w.queries && (w.queries[q].trans.Some? ==> w.queries[q].trans.value in w.trans)
    ensures w.queries[q].isOpen ==> CursorOpened(w, q) == w
    ensures var (w1, P) := (CursorOpened(w, q), w.queries[q := w.queries[q].(isOpen := true)]);
            !w.queries[q].isOpen ==>
              match w.queries[q].trans
              case None => w1 == w.(queries := P)
              case Some(t) =>
                var c := w.trans[t].count + 1;
                w1 == w.(trans := w.trans[t := w.trans[t].(count := if c < COUNTER_LIMIT then c else 0)], queries := P,
                         wrapped := w.wrapped || c >= COUNTER_LIMIT)
  {}

  /** One query's flag and its transaction's counter change together. */
  lemma FlagAndCount(w: World, q: Addr, qq: Query, t: Addr, count: nat, aux: Option<Addr>)
    requires Inv(w, aux) && q in w.queries && t in w.trans && SameRole(w.queries[q], qq)
    requires qq.isOpen && qq.stmt.Some? ==> qq.kind.Select?
    ensures var T := w.trans[t := w.trans[t].(count := count)];
            Shape(w.links, T, w.queries[q := qq], w.batches, w.stmts, aux) && WorkOk(T, w.durable, w.next)
  {
    hide Inv, Shape, WorkOk, Tallied;
    PartsOf(w, aux);
    LinkLive(w, t, aux);
    var tr := w.trans[t].(count := count);
    ScalarTransShape(w.links, w.trans, w.queries, w.batches, w.stmts, t, tr, aux);
    ScalarQueryShape(w.links, w.trans[t := tr], w.queries, w.batches, w.stmts, q, qq, aux);
    WorkLike(w.trans, w.trans[t := tr], w.durable, w.next, w.next);
  }

  /** Counters stay right when one query is opened (`d` = 1) or closed (`d` = -1) and the counter of the
      registry that lists it follows. */
  lemma FlipTally(T: map<Addr, Trans>, R: map<Addr, Trans>, Q: map<Addr, Query>, P: map<Addr, Query>, q: Addr, d: int,
                  strict: bool)
    requires R.Keys == T.Keys && (forall u :: u in T ==> NoDup(T[u].queries) && CountOk(Q, T[u], strict))
    requires d == 1 || d == -1
    requires OpenIn(P, q) == (d == 1) && OpenIn(Q, q) == (d == -1) && forall p :: p != q ==>
               OpenIn(P, p) == OpenIn(Q, p)
    requires forall u :: u in T ==>
               R[u].queries == T[u].queries && R[u].count == T[u].count +
                   (if q in T[u].queries then d else 0) < COUNTER_LIMIT
    ensures Tallied(R, P, strict, false)
  {
    hide NoDup;
    forall u | u in R ensures CountOk(P, R[u], strict) {
      assert CountOk(Q, T[u], strict);
      if d == 1 { OpensFlip(Q, P, T[u].queries, q); } else { OpensFlip(P, Q, T[u].queries, q); }
    }
  }

  /** The counter of the registry that lists an open query is positive. */
  lemma OpensPositive(w: World, q: Addr, t: Addr, aux: Option<Addr>)
    requires Inv(w, aux) && OpenIn(w.queries, q) && w.queries[q].trans == Some(t) && !w.wrapped
    ensures t in w.trans && 0 < w.trans[t].count < COUNTER_LIMIT
  {
    QueryLive(w, q, aux);
    assert CountOk(w.queries, w.trans[t], w.rules.strict);
    OpensWithout(w.queries, w.trans[t].queries, q);
  }

  lemma Counters(w: World, q: Addr, aux: Option<Addr>)
    requires Inv(w, aux) && q in w.queries
    ensures forall u :: u in w.trans ==>
              NoDup(w.trans[u].queries) && (q in w.trans[u].queries <==> w.queries[q].trans == Some(u))
    ensures !w.wrapped ==> forall u :: u in w.trans ==>
              CountOk(w.queries, w.trans[u], w.rules.strict) && w.trans[u].count < COUNTER_LIMIT
  {
    assert QueryEnrolled(w.trans, w.queries[q], q);
    forall u | u in w.trans ensures NoDup(w.trans[u].queries) &&
    (q in w.trans[u].queries <==> w.queries[q].trans == Some(u)) {
      assert RegistryOk(w.trans[u], u, w.queries);
    }
  }

  /** Opening raises the counter of the one registry that lists the query. */
  lemma OpenedTally(w: World, q: Addr, aux: Option<Addr>)
    requires Inv(w, aux) && q in w.queries && !w.queries[q].isOpen
    ensures var w1 := CursorOpened(w, q); Tallied(w1.trans, w1.queries, w.rules.strict, w1.wrapped)
  {
    hide CursorOpened, CountOk, NoDup, QueryOnLink, Shape, WorkOk, Addresses, SameLayout, OnlyFlags, SameRole;
    QueryLive(w, q, aux);
    Counters(w, q, aux);
    OpenedIs(w, q);
    hide Inv;
    var w1 := CursorOpened(w, q);
    if w1.wrapped { assert Tallied(w1.trans, w1.queries, w.rules.strict, w1.wrapped); }
    else if w.queries[q].trans.None? { FlipTally(w.trans, w.trans, w.queries, w1.queries, q, 1, w.rules.strict); }
    else {
      var t := w.queries[q].trans.value;
      var R := w.trans[t := w.trans[t].(count := w.trans[t].count + 1)];
      FlipTally(w.trans, R, w.queries, w1.queries, q, 1, w.rules.strict);
    }
  }

  /** Closing lowers it. */
  lemma ClosedTally(w: World, q: Addr, aux: Option<Addr>)
    requires Inv(w, aux) && q in w.queries && w.queries[q].isOpen
    ensures var w1 := Closed(w, q); Tallied(w1.trans, w1.queries, w.rules.strict, w1.wrapped)
  {
    hide CountOk, NoDup, QueryOnLink, Shape, WorkOk, Addresses, SameLayout, OnlyFlags, SameRole;
    QueryLive(w, q, aux);
    Counters(w, q, aux);
    hide Inv;
    var w1 := Closed(w, q);
    if w1.wrapped { assert Tallied(w1.trans, w1.queries, w.rules.strict, w1.wrapped); }
    else if w.queries[q].trans.None? { FlipTally(w.trans, w.trans, w.queries, w1.queries, q, -1, w.rules.strict); }
    else {
      var t := w.queries[q].trans.value;
      OpensPositive(w, q, t, aux);
      var R := w.trans[t := w.trans[t].(count := w.trans[t].count - 1)];
      FlipTally(w.trans, R, w.queries, w1.queries, q, -1, w.rules.strict);
    }
  }

  lemma MoreKeeps(w: World, q: Addr, more: bool, aux: Option<Addr>)
    requires Inv(w, aux) && q in w.queries
    ensures Inv(SetMore(w, q, more), aux)
  {
    ScalarQuery(w, q, w.queries[q].(more := more), aux);
  }

  /** Closing a cursor changes its flag and at most lowers its transaction's counter: the idle release it
      calls cannot fire, because the query is still enrolled. */
  function Closed(w: World, q: Addr): (r: World)
    requires q in w.queries
    ensures SameLayout(w, r) && r.queries == w.queries[q := w.queries[q].(isOpen := false)]
  {
    w.(trans := Lowered(w.trans, w.queries[q]), queries := w.queries[q := w.queries[q].(isOpen := false)])
  }

  /** The counters after `qq` has been closed. */
  function Lowered(T: map<Addr, Trans>, qq: Query): map<Addr, Trans> {
    if !qq.isOpen || qq.trans.None? || qq.trans.value !in T then T
    else
      var t := qq.trans.value;
      if T[t].count == 0 then T else T[t := T[t].(count := T[t].count - 1)]
  }

  lemma CloseNeverReleases(w: World, q: Addr, net: Net, aux: Option<Addr>)
    requires Inv(w, aux) && q in w.queries
    ensures CursorClosed(w, q, net) == Closed(w, q)
  {
    hide Inv, CountDown, SameLayout, OnlyFlags, QueryOnLink;
    QueryLive(w, q, aux);
    if w.queries[q].trans.Some? { DownIs(w, w.queries[q].trans.value, net); }
  }

  /** Where a query is enrolled the transaction is not idle. */
  lemma DownIs(w: World, t: Addr, net: Net)
    requires t in w.trans && w.trans[t].queries != []
    ensures CountDown(w, t, net) == if w.trans[t].count == 0 then w
            else SetT(w, t, w.trans[t].(count := w.trans[t].count - 1))
  {
    hide CommitRestart, SameLayout, OnlyTrans;
  }

  lemma LoweredIs(T: map<Addr, Trans>, qq: Query)
    ensures var R := Lowered(T, qq);
            && R.Keys == T.Keys && (forall u :: u in T ==> R[u].exact == T[u].exact)
            && (R == T || (qq.trans.Some? && qq.trans.value in T && T[qq.trans.value].count > 0 &&
                           R == T[qq.trans.value := T[qq.trans.value].(count := T[qq.trans.value].count - 1)]))
  {}

  lemma ClosedKeeps(w: World, q: Addr, net: Net, aux: Option<Addr>)
    requires Inv(w, aux) && q in w.queries
    ensures Inv(CursorClosed(w, q, net), aux) && !CursorClosed(w, q, net).queries[q].isOpen
  {
    hide Inv, CursorClosed, SameLayout, OnlyFlags, Lowered, Shape, WorkOk, Tallied;
    CloseNeverReleases(w, q, net, aux);
    var (T, qq) := (Lowered(w.trans, w.queries[q]), w.queries[q].(isOpen := false));
    LoweredIs(w.trans, w.queries[q]);
    PartsOf(w, aux);
    if T == w.trans { ScalarQueryShape(w.links, w.trans, w.queries, w.batches, w.stmts, q, qq, aux); }
    else {
      var t := w.queries[q].trans.value;
      FlagAndCount(w, q, qq, t, w.trans[t].count - 1, aux);
    }
    ClosedTallied(w, q, aux);
    Rebuilt(w, T, w.queries[q := qq], w.stmts, w.next, w.wrapped, aux);
  }

  lemma ClosedTallied(w: World, q: Addr, aux: Option<Addr>)
    requires Inv(w, aux) && q in w.queries
    ensures Tallied(Lowered(w.trans, w.queries[q]), w.queries[q := w.queries[q].(isOpen := false)], w.rules.strict,
                    w.wrapped)
  {
    hide Inv, Tallied, SameLayout;
    PartsOf(w, aux);
    if w.queries[q].isOpen { ClosedTally(w, q, aux); }
    else { TalliedLike(w.trans, w.trans, w.queries, w.queries[q := w.queries[q].(isOpen := false)], w.rules.strict,
                       w.wrapped); }
  }
}
