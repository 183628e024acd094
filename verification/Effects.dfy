/** What the main calls do to work, handles and results, across the functions that carry them out. */
module Effects {
  import opened State
  import opened Transactions
  import opened Queries
  import opened Steps
  import opened Invariant
  import opened TransactionsKeep
  import opened StructureKeeps
  import opened LinksKeep
  import opened QueriesKeep
  import opened ExecKeeps
  import opened StepsKeep
  import opened Outcomes

  // ------------------------------------------------------------ ending a transaction

  /** Commit and rollback end the transaction whatever the server says; work becomes durable only by a
      commit that the server accepts. */
  lemma EndsExactly(w: World, t: Addr, mode: Mode, net: Net)
    requires t in w.trans && w.trans[t].handle.Some? && (mode.Commit? || mode.Rollback?)
    ensures TransEnd(w, t, mode, net) ==
              (net(w.tick),
               Put(w, t, w.trans[t].(handle := None, retain := false),
                   w.durable + (if mode.Commit? && net(w.tick) then Pending(w.trans, t) else []), w.tick + 1))
  {
    hide SameLayout, OnlyTrans, TryCommit, TryRollback;
    EndIs(w, t, net);
    var (tr, h) := (w.trans[t], w.trans[t].handle.value);
    UpdateTwice(w.trans, t, tr.(handle := Some(h.(pending := []))), tr.(handle := None, retain := false));
    assert w.durable + [] == w.durable;
  }

  /** An explicit transaction that was ended behind its owner's back is started again first, so that a commit
      of it succeeds without making anything durable. */
  lemma EndHealsExplicit(w: World, t: Addr, net: Net, aux: Option<Addr>)
    requires Inv(w, aux) && t in w.trans && w.trans[t].handle.None? && !w.trans[t].isDefault && w.trans[t].link.Some?
    ensures var (ok, r) := TransEnd(w, t, Commit, net);
            && (ok <==> net(w.tick) && net(w.tick + 1) && net(w.tick + 2))
            && r.durable == w.durable && t in r.trans && r.trans[t].handle.None?
  {
    hide Inv, SameLayout, OnlyTrans, RestartFromTpb, TransEnd;
    LinkLive(w, t, aux);
    RestartPut(w, t, net);
    var w1 := RestartFromTpb(w, t, net).1;
    HealsFirst(w, t, Commit, net);
    if net(w.tick) && net(w.tick + 1) {
      EndsExactly(w1, t, Commit, net);
      assert w.durable + [] == w.durable;
    }
  }

  /** Whatever is asked of an ended explicit transaction, it is first started again, and then treated as any other. */
  lemma HealsFirst(w: World, t: Addr, mode: Mode, net: Net)
    requires t in w.trans && w.trans[t].handle.None? && !w.trans[t].isDefault
    ensures var (ok, w1) := RestartFromTpb(w, t, net);
            if ok then t in w1.trans && w1.trans[t].handle.Some? &&
                TransEnd(w, t, mode, net) == TransEnd(w1, t, mode, net)
            else TransEnd(w, t, mode, net) == (false, w1)
  {
    RestartIs(w, t, net);
    hide EndSwitch, RestartFromTpb;
  }

  /** Retaining modes keep the handle where the switch leaves one, and an ended default transaction is left alone. */
  lemma RetainsExactly(w: World, t: Addr, mode: Mode, net: Net)
    requires t in w.trans && (mode.RollbackRet? || mode.CommitRet?)
    ensures w.trans[t].handle.Some? ==> TransEnd(w, t, mode, net) == EndSwitch(w, t, mode, net)
    ensures w.trans[t].handle.None? && w.trans[t].isDefault ==> TransEnd(w, t, mode, net) == (true, w)
  {
    hide EndSwitch;
  }

  // ------------------------------------------------------------ autocommit

  /** Closing cursors commits nothing. */
  lemma {:induction false} CloseCursorsCommitNothing(w: World, t: Addr, i: nat, end: nat, net: Net, aux: Option<Addr>)
    requires Inv(w, aux)
    ensures var w1 := CloseCursors(w, t, i, end, net).1; w1.durable == w.durable && w1.tick == w.tick
    decreases end - i
  {
    hide Inv, Shut;
    if i < end {
      if i in w.queries && w.queries[i].isOpen && w.queries[i].trans == Some(t) {
        ShutKeeps(w, i, net, aux);
        ShutCommitsNothing(w, i, net, aux);
        CloseCursorsCommitNothing(Shut(w, i, net), t, i + 1, end, net, aux);
      } else {
        CloseCursorsCommitNothing(w, t, i + 1, end, net, aux);
      }
    }
  }

  lemma ShutCommitsNothing(w: World, q: Addr, net: Net, aux: Option<Addr>)
    requires Inv(w, aux) && q in w.queries
    ensures Shut(w, q, net).durable == w.durable && Shut(w, q, net).tick == w.tick
  {
    hide Inv, CursorClosed, SameLayout, OnlyFlags;
    ClosingCommitsNothing(w, q, net, aux);
  }

  /** Autocommit always ends the transaction, and makes durable all that was pending or nothing: all of it
      exactly when the server accepts the first commit, or the second one after cursors were closed. */
  lemma AutoCommitSettles(w: World, t: Addr, retry: bool, net: Net, aux: Option<Addr>)
    requires Inv(w, aux) && t in w.trans && w.trans[t].handle.Some?
    ensures var r := AutoCommit(w, t, retry, net);
            var again := retry && w.trans[t].count > 0 && CloseCursors(Tick(w), t, 0, w.next, net).0 > 0 &&
                net(w.tick + 1);
            Ended(r, t, w.durable + if net(w.tick) || again then Pending(w.trans, t) else [])
  {
    hide Inv, CloseCursors, TryCommit, FreeHandle, OnlyTrans, SameLayout;
    CommitIs(w, t, net);
    Committed(w, t, net);
    if !net(w.tick) {
      TickKeeps(w, aux);
      CursorsKeepHandles(Tick(w), t, net, aux);
      CloseCursorsCommitNothing(Tick(w), t, 0, w.next, net, aux);
      Committed(CloseCursors(Tick(w), t, 0, w.next, net).1, t, net);
    }
  }

  lemma CursorsKeepHandles(w: World, t: Addr, net: Net, aux: Option<Addr>)
    requires Inv(w, aux) && t in w.trans
    ensures var w1 := CloseCursors(w, t, 0, w.next, net).1; t in w1.trans && w1.trans[t].handle == w.trans[t].handle
  {
    hide Inv, CloseCursors;
    CloseCursorsKeeps(w, t, 0, w.next, net, aux);
  }

  /** A commit, and the handle dropped with or without one. */
  lemma Committed(w: World, t: Addr, net: Net)
    requires t in w.trans && w.trans[t].handle.Some?
    ensures var (ok, w1) := TryCommit(w, t, net);
            && (ok <==> net(w.tick)) && (!ok ==> w1 == Tick(w))
            && Ended(FreeHandle(w1, t), t, w.durable + if ok then Pending(w.trans, t) else [])
    ensures Ended(FreeHandle(w, t), t, w.durable)
  {
    hide TryCommit, FreeHandle, SameLayout, OnlyTrans;
    EndIs(w, t, net);
    FreeHandlePut(w, t);
    FreeHandlePut(TryCommit(w, t, net).1, t);
    assert w.durable + [] == w.durable;
  }

  /** `t` has no handle left, and exactly this work is durable. */
  ghost predicate Ended(r: World, t: Addr, durable: seq<Work>) {
    t in r.trans && r.trans[t].handle.None? && r.durable == durable
  }

  // ------------------------------------------------------------ statements

  /** What running a statement does to the pending work of its transaction: nothing for a SELECT that does not
      write, a cut for a savepoint, one new piece of work for anything else; a refusal by the server adds nothing,
      unless it is the fetch of a RETURNING row that fails. */
  lemma RunningAddsWork(w: World, q: Addr, effect: Effect, net: Net, t: Addr, aux: Option<Addr>)
    requires Inv(w, aux) && q in w.queries && w.queries[q].stmt.Some? && w.queries[q].trans == Some(t)
    requires w.trans[t].handle.Some? && !w.queries[q].kind.Unsupported?
    ensures var (ran, r) := RunStatement(w, q, effect, net);
            var (kind, before) := (w.queries[q].kind, Pending(w.trans, t));
            && r.durable == w.durable && (ran ==> net(w.tick))
            && Pending(r.trans, t) ==
                 (if !net(w.tick) || (kind.Select? && !effect.writes) then before
                  else if kind.Savepoint? then before[..Min(effect.keep, |before|)]
                  else before + [w.next])
            && (ran <==> net(w.tick) && (kind.Dml? && w.queries[q].columns > 0 ==> net(w.tick + 1)))
  {
    hide Inv, AddWork, SameLayout, QueryOnLink, Pending;
    QueryLive(w, q, aux);
    AddWorkAdds(Tick(w), t, w.queries[q].kind, effect);
  }

  lemma AddWorkAdds(w: World, t: Addr, kind: Kind, effect: Effect)
    requires t in w.trans && w.trans[t].handle.Some?
    ensures var (r, before) := (AddWork(w, t, kind, effect), Pending(w.trans, t));
            && r.durable == w.durable && r.tick == w.tick && Same(r.queries, w.queries)
            && Pending(r.trans, t) ==
                 (if kind.Select? && !effect.writes then before
                 else if kind.Savepoint? then before[..Min(effect.keep, |before|)] else before + [w.next])
  {}

  // ------------------------------------------------------------ results

  /** A SELECT with columns opens its query and hands out a child of it that shares the statement handle and
      is open itself; both are counted on the query's transaction. */
  lemma SelectMakesChild(w: World, q: Addr, t: Addr, aux: Option<Addr>)
    requires Inv(w, aux) && q in w.queries && w.queries[q].kind.Select? && w.queries[q].stmt.Some? &&
             w.queries[q].columns > 0
    requires w.queries[q].trans == Some(t)
    ensures var (reply, r) := FinishSelect(w, q);
            var c := w.next;
            && reply == Result(c) && c !in w.queries && c in r.queries && q in r.queries
            && r.queries[c] == Query(w.queries[q].link, Some(t), Some(t), w.queries[q].explicit, Select,
                                     w.queries[q].columns, w.queries[q].columns,
                                     w.queries[q].inputs, false, true, true, true, w.queries[q].stmt, false,
                                         Some(q), [])
            && r.queries[q] == w.queries[q].(isOpen := true, more := true, children := [c] + w.queries[q].children)
            && OpenOn(r.queries, t) == OpenOn(w.queries, t) + {q, c}
  {
    hide Inv, MakeResult, CursorOpened, SetMore, QueryOnLink;
    QueryLive(w, q, aux);
    FreshAddress(w, aux);
    ColumnsMatch(w, q, aux);
    OpenedQueries(w, q);
    var w1 := SetMore(CursorOpened(w, q), q, true);
    MoreIs(CursorOpened(w, q), q);
    ResultIs(w1, q, t);
  }

  lemma OpenedQueries(w: World, q: Addr)
    requires q in w.queries && (w.queries[q].trans.Some? ==> w.queries[q].trans.value in w.trans)
    ensures var r := CursorOpened(w, q);
            Same(r.queries, w.queries[q := w.queries[q].(isOpen := true)]) && r.next == w.next &&
            r.trans.Keys == w.trans.Keys
  {
    hide SameLayout, OnlyFlags;
    OpenedIs(w, q);
    if w.queries[q].isOpen { assert w.queries[q := w.queries[q].(isOpen := true)] == w.queries; }
  }

  lemma MoreIs(w: World, q: Addr)
    requires q in w.queries
    ensures var r := SetMore(w, q, true);
            Same(r.queries, w.queries[q := w.queries[q].(more := true)]) && r.next == w.next &&
            r.trans.Keys == w.trans.Keys
  {}

  /** The result itself. */
  lemma ResultIs(w: World, q: Addr, t: Addr)
    requires q in w.queries && t in w.trans && w.queries[q].trans == Some(t) && w.next !in w.queries
    requires w.queries[q].sqld == w.queries[q].columns <= MAX_COLUMNS
    ensures var (reply, r) := MakeResult(w, q);
            var (c, made) := (w.next, ResultOf(w.queries[q], q).(trans := Some(t), reg := Some(t)));
            && reply == Result(c)
            && Same(r.queries, Adopted(w.queries, c, made)[c := made.(isOpen := true)])
  {
    hide Adopted, CursorOpened, SameLayout, OnlyFlags;
    var (c, qq) := (w.next, ResultOf(w.queries[q], q));
    var w1 := NewQuery(w, t, qq);
    AdoptedNew(w.queries, c, qq.(trans := Some(t), reg := Some(t)));
    OpenedQueries(w1, c);
  }

  lemma AdoptedNew(Q: map<Addr, Query>, q: Addr, qq: Query)
    requires q !in Q
    ensures q in Adopted(Q, q, qq) && (qq.parent.None? || qq.parent.value !in Q || qq.parent.value != q ==>
              Adopted(Q, q, qq)[q] == qq)
  {}

  /** A one-shot result stands alone: it shares no handle with its query, which it leaves as it was. */
  lemma OneShotStandsAlone(w: World, q: Addr, t: Addr, aux: Option<Addr>)
    requires Inv(w, aux) && q in w.queries && OneShot(w.queries[q].kind) && w.queries[q].trans == Some(t)
    ensures var (reply, r) := MakeResult(w, q);
            var c := w.next;
            && reply == Result(c) && c in r.queries && q in r.queries && r.queries[q] == w.queries[q]
            && r.queries[c].stmt.None? && r.queries[c].parent.None? && !r.queries[c].owns && r.queries[c].isOpen &&
               r.queries[c].more
            && r.queries[c].trans == Some(t) && OpenOn(r.queries, t) == OpenOn(w.queries, t) + {c}
  {
    hide Inv, MakeResult, QueryOnLink;
    QueryLive(w, q, aux);
    FreshAddress(w, aux);
    ColumnsMatch(w, q, aux);
    ResultIs(w, q, t);
  }

  /** At the end of a one-shot SELECT the result owns the statement and stands alone, the prepared query is
      gone, and nothing else has changed: no work, no handle, no other query. */
  lemma SettleHandsOver(w: World, q: Addr, c: Addr, t: Addr, net: Net, aux: Option<Addr>)
    requires Inv(w, aux) && q in w.queries && c in w.queries && c != q && w.queries[q].owns && w.queries[q].parent.None?
    requires w.queries[q].children == [c] && w.queries[c].parent == Some(q) &&
             w.queries[q].trans == w.queries[c].trans == Some(t)
    ensures var r := Settle(w, q, Result(c), net);
            && Same(r.queries, (w.queries - {q})[c := w.queries[c].(owns := true, parent := None)])
            && r.stmts == w.stmts && r.durable == w.durable && r.tick == w.tick
            && t in r.trans && r.trans[t].queries == Without(w.trans[t].queries, q) &&
               r.trans[t].handle == w.trans[t].handle
            && forall u :: u in w.trans && u != t ==> u in r.trans && r.trans[u] == w.trans[u]
  {
    hide Inv, CursorClosed, QueryOnLink, Without, SameLayout, OnlyFlags, FreeQuery;
    var w1 := Transfer(w, q, c);
    TransferKeeps(w, q, c, aux);
    ClosedKeeps(w1, q, net, aux);
    CloseNeverReleases(w1, q, net, aux);
    QueryLive(w, q, aux);
    QueryLive(w, c, aux);
    var w2 := CursorClosed(w1, q, net);
    ClosedLocal(w1, q, t);
    FreeEmptied(w2, q, c, t, net, aux);
    assert Settle(w, q, Result(c), net) == FreeQuery(w2, q, net);
    MapsAgree(w.queries, q, c, w.queries[c].(owns := true, parent := None), w1.queries[q], w2.queries[q]);
  }

  lemma MapsAgree(Q: map<Addr, Query>, q: Addr, c: Addr, x: Query, y: Query, z: Query)
    requires c != q
    ensures Q[c := x][q := y][q := z] - {q} == (Q - {q})[c := x]
  {}

  lemma ClosedLocal(w: World, q: Addr, t: Addr)
    requires q in w.queries && w.queries[q].trans == Some(t) && t in w.trans
    ensures var r := Closed(w, q);
            && r == w.(queries := w.queries[q := w.queries[q].(isOpen := false)],
                       trans := w.trans[t := w.trans[t].(count := r.trans[t].count)])
  {}

  /** Freeing a closed query that holds no handle and no results only takes it off its registry, as long as
      another query keeps that from being empty. */
  lemma FreeEmptied(w: World, q: Addr, c: Addr, t: Addr, net: Net, aux: Option<Addr>)
    requires Inv(w, aux) && q in w.queries && c in w.queries && c != q && !w.queries[q].isOpen &&
             w.queries[q].stmt.None?
    requires w.queries[q].children == [] && w.queries[q].parent.None? &&
             w.queries[q].trans == w.queries[c].trans == Some(t)
    ensures t in w.trans
    ensures FreeQuery(w, q, net) == w.(queries := w.queries - {q},
                                       trans := w.trans[t := w.trans[t].(queries := Without(w.trans[t].queries, q))])
  {
    hide Inv, QueryOnLink, SameLayout, OnlyTrans, DestroyLeaf, CommitRestart;
    QueryLive(w, q, aux);
    QueryLive(w, c, aux);
    RemoveQueryIs(w, q);
    assert FreeAll(w, q, [], w.next, net) == w;
    WithoutIn(w.trans[t].queries, q, c);
    NothingToClose(w, q, t, net);
    hide RemoveQuery;
  }

  lemma NothingToClose(w: World, q: Addr, t: Addr, net: Net)
    requires q in w.queries && !w.queries[q].isOpen && w.queries[q].stmt.None? && w.queries[q].trans == Some(t)
    ensures DestroyLeaf(w, q, true, net) == ReleaseIfIdle(RemoveQuery(w, q), t, net)
  {
    hide RemoveQuery, ReleaseIfIdle;
  }

  // ------------------------------------------------------------ fetching

  /** A result whose row is already there is fetched exactly once: that closes it, takes it out of the open
      queries of its transaction without asking the server, and the next fetch finds nothing. */
  lemma BufferedRowIsFetchedOnce(w: World, q: Addr, net: Net, t: Addr, aux: Option<Addr>)
    requires Inv(w, aux) && q in w.queries && w.queries[q].isOpen && w.queries[q].more && w.queries[q].columns > 0
    requires (Buffered(w.queries[q]) || w.queries[q].stmt.None?) && w.queries[q].trans == Some(t)
    ensures var r := FetchCursor(w, q, net).1;
            && FetchCursor(w, q, net).0 == Buffered(w.queries[q]) && q in r.queries && !r.queries[q].isOpen &&
               !r.queries[q].more && r.tick == w.tick && r.durable == w.durable
            && OpenOn(r.queries, t) == OpenOn(w.queries, t) - {q}
            && FetchCursor(r, q, net) == (false, r)
  {
    hide Inv, CursorClosed, SameLayout, OnlyFlags;
    MoreKeeps(w, q, false, aux);
    CloseNeverReleases(SetMore(w, q, false), q, net, aux);
    ClosingCommitsNothing(SetMore(w, q, false), q, net, aux);
  }

  // ------------------------------------------------------------ freeing a SELECT result

  /** Closing one cursor takes one query out of the open ones of `t`, and asks the server nothing. */
  ghost predicate OneShut(w: World, r: World, x: Addr, t: Addr) {
    && t in w.trans && t in r.trans && Same(r.trans[t], w.trans[t].(count := r.trans[t].count))
    && r.durable == w.durable && r.tick == w.tick && r.wrapped == w.wrapped && Same(r.links, w.links) &&
       r.rules == w.rules
    && OpenOn(r.queries, t) == OpenOn(w.queries, t) - {x}
  }

  lemma ShutLocal(w: World, x: Addr, t: Addr, net: Net)
    requires Inv(w, None) && x in w.queries && t in w.trans
    ensures OneShut(w, Shut(w, x, net), x, t)
  {
    hide Inv, CursorClosed, SameLayout, OnlyFlags;
    CloseNeverReleases(w, x, net, None);
  }

  /** The queries whose cursors close when the result `q` is freed: itself and its statement. */
  function Closing(qq: Query, q: Addr): set<Addr> { {q} + if qq.parent.Some? then {qq.parent.value} else {} }

  /** The state in which the freed result's transaction may be committed: cursors closed, handle dropped. */
  lemma ClearedForCommit(w: World, q: Addr, t: Addr, net: Net)
    requires Inv(w, None) && q in w.queries && w.queries[q].isOpen && w.queries[q].stmt.Some?
    requires w.queries[q].trans == Some(t) && w.queries[q].children == []
    ensures var w2 := DropStmt(CloseForFree(w, q, true, net), q);
            && t in w.trans && t in w2.trans && Same(w2.trans[t], w.trans[t].(count := w2.trans[t].count))
            && w2.durable == w.durable && w2.tick == w.tick && w2.wrapped == w.wrapped && Same(w2.links, w.links) &&
               w2.rules == w.rules
            && Inv(w2, None) && q in w2.queries && SamePointers(w.queries[q], w2.queries[q])
            && OpenOn(w2.queries, t) == OpenOn(w.queries, t) - Closing(w.queries[q], q)
  {
    hide Inv, Shut, OpenOn, QueryOnLink, DropStmt;
    QueryLive(w, q, None);
    CloseForFreeKeeps(w, q, true, net, None);
    ShutLocal(w, q, t, net);
    ShutKeeps(w, q, net, None);
    FlagsKept(w, Shut(w, q, net), q);
    if w.queries[q].parent.Some? { ShutLocal(Shut(w, q, net), w.queries[q].parent.value, t, net); }
    var w1 := CloseForFree(w, q, true, net);
    DropKeeps(w1, q, None);
    DroppedIs(w1, q);
    DropLocal(w1, q, t);
  }

  lemma DropLocal(w: World, q: Addr, t: Addr)
    requires q in w.queries
    ensures var r := DropStmt(w, q);
            && Same(r.trans, w.trans) && r.durable == w.durable && r.tick == w.tick && r.wrapped == w.wrapped &&
               Same(r.links, w.links)
            && r.rules == w.rules && OpenOn(r.queries, t) == OpenOn(w.queries, t)
  {}

  /** Freeing the last open result on a default transaction commits that transaction; while another cursor
      is open on it, nothing is committed and the handle stays. The statement of the result closes with it. */
  lemma LastResultCommits(w: World, q: Addr, t: Addr, net: Net)
    requires Inv(w, None) && !w.wrapped && w.rules.strict
    requires q in w.queries && w.queries[q].isOpen && w.queries[q].stmt.Some? && w.queries[q].children == []
    requires w.queries[q].trans == Some(t) && !w.queries[q].explicit && w.trans[t].handle.Some?
    requires w.queries[q].link in w.links && !w.links[w.queries[q].link].persistent
    ensures var r := FreeQuery(w, q, net);
            if OpenOn(w.queries, t) <= Closing(w.queries[q], q) then
              Ended(r, t, w.durable + if net(w.tick) && net(w.tick + 1) then Pending(w.trans, t) else [])
            else t in r.trans && r.trans[t].handle == w.trans[t].handle && r.durable == w.durable
  {
    hide Inv, CloseForFree, DropStmt, CommitOnFree, RemoveQuery, ReleaseIfIdle, QueryOnLink, OpenOn, Closing;
    ImplicitIsDefault(w, q, t);
    ClearedForCommit(w, q, t, net);
    var w2 := DropStmt(CloseForFree(w, q, true, net), q);
    QueryLive(w2, q, None);
    CounterBounds(w2, t, None);
    NoneLeft(OpenOn(w.queries, t), Closing(w.queries[q], q));
    CommitDecided(w2, q, t, net);
    var w3 := CommitOnFree(w2, q, true, net);
    assert FreeAll(w, q, [], w.next, net) == w;
    RemovedUnreleased(w3, q, t, net);
    assert w.durable + [] == w.durable;
  }

  lemma NoneLeft(s: set<Addr>, gone: set<Addr>)
    ensures |s - gone| == 0 <==> s <= gone
  {
    if s <= gone { assert s - gone == {}; }
    else {
      var x :| x in s && x !in gone;
      assert x in s - gone;
    }
  }

  lemma ImplicitIsDefault(w: World, q: Addr, t: Addr)
    requires Inv(w, None) && q in w.queries && w.queries[q].trans == Some(t) && !w.queries[q].explicit
    ensures t in w.trans && w.trans[t].isDefault && w.queries[q].reg == Some(t)
    ensures w.queries[q].parent.Some? ==> w.queries[q].parent.value in w.queries
  {
    QueryLive(w, q, None);
  }

  lemma CommitDecided(w: World, q: Addr, t: Addr, net: Net)
    requires q in w.queries && !w.queries[q].explicit && w.queries[q].trans == Some(t) && t in w.trans &&
             w.trans[t].isDefault
    requires w.trans[t].handle.Some? && w.queries[q].link in w.links && !w.links[w.queries[q].link].persistent
    ensures var r := CommitOnFree(w, q, true, net);
            && Same(r.queries, w.queries) && t in r.trans
            && (w.trans[t].count > 0 ==> r == w)
            && (w.trans[t].count == 0 ==> Ended(r, t, w.durable + if net(w.tick) &&
               net(w.tick + 1) then Pending(w.trans, t) else []))
  {
    hide TryCommit, FreeHandle, SameLayout, OnlyTrans;
    Committed(Tick(w), t, net);
    assert w.durable + [] == w.durable;
  }

  /** Where a cursor is open or the handle is gone, no idle release follows the removal. */
  lemma RemovedUnreleased(w: World, q: Addr, t: Addr, net: Net)
    requires q in w.queries && w.queries[q].reg == Some(t) && t in w.trans
    requires w.queries[q].parent.Some? ==> w.queries[q].parent.value in w.queries
    requires w.trans[t].count > 0 || w.trans[t].handle.None?
    ensures var r := ReleaseIfIdle(RemoveQuery(w, q), t, net);
            t in r.trans && r.trans[t].handle == w.trans[t].handle && r.durable == w.durable
  {
    hide SameLayout, OnlyTrans;
  }

  // ------------------------------------------------------------ dropping a table

  /** Dropping a table makes the DROP and everything else that was pending durable and takes the transaction
      off its link for good, or, if the server refuses, leaves it where it is with nothing durable. */
  lemma DropSettles(w: World, t: Addr, net: Net)
    requires Inv(w, None) && t in w.trans && w.trans[t].handle.Some?
    ensures var r := DropTable(w, t, net);
            if net(w.tick) && net(w.tick + 1) then
              && r.durable == w.durable + Pending(w.trans, t) + [w.next]
              && (w.trans[t].isDefault ==> t !in r.trans)
              && (!w.trans[t].isDefault ==> t in r.trans && r.trans[t].handle.None? && r.trans[t].link.None?)
            else
              r.durable == w.durable && t in r.trans && r.trans[t].handle.Some? && r.trans[t].link == w.trans[t].link
  {
    hide Inv, AddWork, TryCommit, FreeHandle, UnlinkTrans, DropDefault, SameLayout;
    LinkLive(w, t, None);
    var w1 := AddWork(Tick(w), t, Ddl, NOTHING);
    DropWork(Tick(w), t);
    Committed(w1, t, net);
    CommitIs(w1, t, net);
    TicksOnly(w1, t, net);
    var w3 := FreeHandle(TryCommit(w1, t, net).1, t);
    if net(w.tick) && net(w.tick + 1) {
      AddWorkKeeps(Tick(w), t, Ddl, NOTHING, None) by { TickKeeps(w, None); }
      CommitKeeps(w1, t, net, None);
      FreeHandleKeeps(TryCommit(w1, t, net).1, t, None);
      GoneFromLink(w3, t);
      assert w.durable + (Pending(w.trans, t) + [w.next]) == w.durable + Pending(w.trans, t) + [w.next];
    }
  }

  lemma DropWork(w: World, t: Addr)
    requires t in w.trans && w.trans[t].handle.Some?
    ensures var r := AddWork(w, t, Ddl, NOTHING);
            && t in r.trans && SamePlace(w.trans[t], r.trans[t]) && r.trans[t].handle.Some? && r.durable == w.durable &&
               r.tick == w.tick
            && Pending(r.trans, t) == Pending(w.trans, t) + [w.next]
  {}

  lemma TicksOnly(w: World, t: Addr, net: Net)
    requires t in w.trans && w.trans[t].handle.Some?
    ensures var w1 := TryCommit(w, t, net).1;
            var r := FreeHandle(w1, t);
            t in w1.trans && t in r.trans && SamePlace(w.trans[t], w1.trans[t]) && SamePlace(w.trans[t], r.trans[t])
  {}

  lemma GoneFromLink(w: World, t: Addr)
    requires Inv(w, None) && t in w.trans && w.trans[t].handle.None?
    ensures w.trans[t].isDefault ==> t !in DropDefault(w, t).trans && DropDefault(w, t).durable == w.durable
    ensures !w.trans[t].isDefault ==>
              var r := UnlinkTrans(w, t);
              t in r.trans && r.trans[t].handle.None? && r.trans[t].link.None? && r.durable == w.durable
  {
    LinkLive(w, t, None);
    assert RegistryOk(w.trans[t], t, w.queries) && BatchRegistryOk(w.trans[t], t, w.batches);
    hide Inv, Without, Blank;
  }

  // ------------------------------------------------------------ closing a link

  /** What the default transaction on a list has pending. */
  ghost function DefaultPending(T: map<Addr, Trans>, trs: seq<Option<Addr>>): seq<Work> {
    var f := FirstDefault(T, trs);
    if f.None? then [] else Pending(T, f.value)
  }

  /** Transactions not on the link stay as they are; explicit ones on it are cut off; default ones are freed. */
  ghost predicate CutOff(T: map<Addr, Trans>, R: map<Addr, Trans>, l: Addr) {
    R.Keys <= T.Keys &&
    forall t :: t in T ==>
      if T[t].link != Some(l) then t in R && R[t] == T[t]
      else if T[t].isDefault then t !in R
      else t in R && R[t].link.None? && R[t].handle.None?
  }

  /** All transactions but `t` are as they were. */
  ghost predicate AllBut(T: map<Addr, Trans>, R: map<Addr, Trans>, t: Option<Addr>) {
    R.Keys <= T.Keys && forall u :: u in T && Some(u) != t ==> u in R && Same(R[u], T[u])
  }

  /** What became of the head transaction, and what of its work. */
  ghost predicate HeadSettled(w: World, r: World, t: Addr, l: Addr, committed: bool) {
    && t in w.trans && w.trans[t].link == Some(l)
    && (if w.trans[t].isDefault then t !in r.trans
        else t in r.trans && r.trans[t].link.None? && r.trans[t].handle.None?)
    && r.durable == w.durable + if w.trans[t].isDefault && committed then Pending(w.trans, t) else []
  }

  /** The calls made to the server for one node: the commit or rollback of a started transaction. */
  function NodeCalls(T: map<Addr, Trans>, node: Option<Addr>, alive: bool): nat {
    if alive && node.Some? && node.value in T && T[node.value].handle.Some? then 1 else 0
  }

  /** The calls made before the node of the first default transaction. */
  function CallsBefore(T: map<Addr, Trans>, trs: seq<Option<Addr>>): nat {
    if trs == [] || (trs[0].Some? && trs[0].value in T && T[trs[0].value].isDefault) then 0
    else NodeCalls(T, trs[0], true) + CallsBefore(T, trs[1..])
  }

  lemma NodeSettles(w: World, l: Addr, alive: bool, net: Net)
    requires Inv(w, None) && l in w.links && w.links[l].trs != []
    ensures var (head, r) := (w.links[l].trs[0], CloseNode(w, l, alive, net));
            && AllBut(w.trans, r.trans, head) && r.tick == w.tick + NodeCalls(w.trans, head, alive)
            && (head.None? ==> r.durable == w.durable) &&
               (head.Some? ==> HeadSettled(w, r, head.value, l, alive && net(w.tick)))
  {
    if w.links[l].trs[0].Some? {
      hide Inv, EndAndDrop, CloseNode, ListOk;
      var t := w.links[l].trs[0].value;
      HeadOff(w, l, t);
      EndAndDropKeeps(w, t, alive, w.trans[t].isDefault, net, None);
      EndedByLink(w, t, alive, w.trans[t].isDefault, net);
      EndAndDropLinks(w, t, alive, w.trans[t].isDefault, net);
      Detachable(EndAndDrop(w, t, alive, w.trans[t].isDefault, net), t);
      HeadCloses(w, l, t, alive, net);
    }
  }

  lemma HeadCloses(w: World, l: Addr, t: Addr, alive: bool, net: Net)
    requires l in w.links && w.links[l].trs != [] && w.links[l].trs[0] == Some(t) && t in w.trans &&
             w.trans[t].link == Some(l)
    requires var w1 := EndAndDrop(w, t, alive, w.trans[t].isDefault, net);
             && w1.links == w.links && AllBut(w.trans, w1.trans, Some(t)) && t in w1.trans &&
                SamePlace(w.trans[t], w1.trans[t])
             && Ended(w1, t, w.durable + if alive && w.trans[t].isDefault && net(w.tick) then Pending(w.trans, t)
                else [])
             && w1.tick == w.tick + NodeCalls(w.trans, Some(t), alive)
             && (forall q :: q in w1.trans[t].queries ==> q in w1.queries) && forall b :: b in w1.trans[t].batches ==>
                  b in w1.batches
    ensures var r := CloseNode(w, l, alive, net);
            && AllBut(w.trans, r.trans, Some(t)) && HeadSettled(w, r, t, l, alive && net(w.tick))
            && r.tick == w.tick + NodeCalls(w.trans, Some(t), alive)
  {
    hide EndAndDrop, DetachAndFree, PopNode, SameLayout, OnlyTrans;
    Popped(EndAndDrop(w, t, alive, w.trans[t].isDefault, net), l, t);
  }

  /** The ended head node goes: with its transaction, or without it. */
  lemma Popped(w: World, l: Addr, t: Addr)
    requires l in w.links && w.links[l].trs != [] && t in w.trans && w.trans[t].link == Some(l)
    requires (forall q :: q in w.trans[t].queries ==> q in w.queries) && forall b :: b in w.trans[t].batches ==>
               b in w.batches
    ensures var r := DetachAndFree(PopNode(w, l), t);
            r.durable == w.durable && r.tick == w.tick && r.trans == w.trans - {t}
    ensures var r := SetT(PopNode(w, l), t, w.trans[t].(link := None));
            r.durable == w.durable && r.tick == w.tick && r.trans == w.trans[t := w.trans[t].(link := None)]
  {
    DetachIs(PopNode(w, l), t);
  }

  lemma EndAndDropLinks(w: World, t: Addr, act: bool, commit: bool, net: Net)
    ensures var r := EndAndDrop(w, t, act, commit, net); r.links == w.links && r.trans.Keys == w.trans.Keys
  {}

  lemma Detachable(w: World, t: Addr)
    requires Inv(w, None) && t in w.trans
    ensures (forall q :: q in w.trans[t].queries ==> q in w.queries) && forall b :: b in w.trans[t].batches ==>
              b in w.batches
  {
    assert RegistryOk(w.trans[t], t, w.queries) && BatchRegistryOk(w.trans[t], t, w.batches);
  }

  lemma EndedByLink(w: World, t: Addr, act: bool, commit: bool, net: Net)
    requires t in w.trans
    ensures var r := EndAndDrop(w, t, act, commit, net);
            && Ended(r, t, w.durable + if act && commit && net(w.tick) then Pending(w.trans, t) else [])
            && SamePlace(w.trans[t], r.trans[t]) && AllBut(w.trans, r.trans, Some(t))
            && r.tick == w.tick + NodeCalls(w.trans, Some(t), act)
  {
    hide EndAndDrop;
    DropPut(w, t, act, commit, net);
  }

  /** Ending and dropping the handle, as one change. */
  lemma DropPut(w: World, t: Addr, act: bool, commit: bool, net: Net)
    requires t in w.trans
    ensures EndAndDrop(w, t, act, commit, net) ==
              Put(w, t, w.trans[t].(handle := None),
                  w.durable + (if act && commit && net(w.tick) then Pending(w.trans, t) else []),
                  w.tick + NodeCalls(w.trans, Some(t), act))
  {
    hide SameLayout, OnlyTrans, TryCommit, TryRollback, FreeHandle, Put;
    assert w.durable + [] == w.durable;
    NothingPut(w, t);
    if w.trans[t].handle.Some? {
      EndIs(w, t, net);
      var (tr, h) := (w.trans[t], w.trans[t].handle.value);
      var ended := tr.(handle := Some(h.(pending := [])));
      FreeHandlePut(w, t);
      FreedPut(w, t, ended, w.durable, w.tick + 1);
      FreedPut(w, t, ended, w.durable + h.pending, w.tick + 1);
    }
  }

  lemma NothingPut(w: World, t: Addr)
    requires t in w.trans
    ensures w.trans[t].handle.None? ==> Put(w, t, w.trans[t].(handle := None), w.durable, w.tick) == w
    ensures FreeHandle(Tick(w), t) == Put(w, t, w.trans[t].(handle := None), w.durable, w.tick + 1)
  {
    hide SameLayout, OnlyTrans;
    if w.trans[t].handle.None? { NoChange(w.trans, t); }
  }

  lemma NoChange<K, V>(m: map<K, V>, k: K)
    requires k in m
    ensures m[k := m[k]] == m
  {}

  lemma FreedPut(w: World, t: Addr, tr: Trans, d: seq<Work>, k: nat)
    requires t in w.trans && tr.(handle := None) == w.trans[t].(handle := None)
    ensures FreeHandle(Put(w, t, tr, d, k), t) == Put(w, t, w.trans[t].(handle := None), d, k)
  {
    UpdateTwice(w.trans, t, tr, tr.(handle := None));
  }

  /** Closing a link, node by node: its default transaction is freed, the others are cut off, and other links'
      transactions are not touched ... */
  lemma {:induction false} NodesCutOff(w: World, l: Addr, n: nat, alive: bool, net: Net)
    requires Inv(w, None) && l in w.links && n == |w.links[l].trs|
    ensures CutOff(w.trans, CloseNodes(w, l, n, alive, net).trans, l)
    decreases n
  {
    hide Inv, CloseNode;
    if n == 0 { EmptyList(w, l); }
    else {
      CloseNodeKeeps(w, l, alive, net);
      NodeSettles(w, l, alive, net);
      NodesCutOff(CloseNode(w, l, alive, net), l, n - 1, alive, net);
    }
  }

  /** ... and what the default transaction had pending is committed if the server says so at its node. */
  lemma {:induction false} NodesCommit(w: World, l: Addr, n: nat, alive: bool, net: Net)
    requires Inv(w, None) && l in w.links && n == |w.links[l].trs|
    ensures CloseNodes(w, l, n, alive, net).durable == w.durable + NodesWork(w, l, alive, net)
    decreases n
  {
    hide Inv, CloseNode, CutOff, AllBut, HeadSettled;
    if n == 0 { EmptyList(w, l); }
    else {
      CloseNodeKeeps(w, l, alive, net);
      NodeSettles(w, l, alive, net);
      var w1 := CloseNode(w, l, alive, net);
      NodesCommit(w1, l, n - 1, alive, net);
      SameDefault(w, w1, l);
      HeadThenRest(w, w1, l, alive, net);
    }
  }

  /** The work that closing the nodes of `l` makes durable. */
  ghost function NodesWork(w: World, l: Addr, alive: bool, net: Net): seq<Work>
    requires l in w.links
  {
    if alive && net(w.tick + CallsBefore(w.trans, w.links[l].trs)) then DefaultPending(w.trans, w.links[l].trs) else []
  }

  lemma HeadThenRest(w: World, w1: World, l: Addr, alive: bool, net: Net)
    requires l in w.links && w.links[l].trs != [] && l in w1.links && w1.links[l].trs == w.links[l].trs[1..]
    requires var head := w.links[l].trs[0];
             && w1.tick == w.tick + NodeCalls(w.trans, head, alive)
             && (head.None? ==> w1.durable == w.durable) &&
                (head.Some? ==> HeadSettled(w, w1, head.value, l, alive && net(w.tick)))
    requires var (head, trs) := (w.links[l].trs[0], w.links[l].trs);
             if head.Some? && head.value in w.trans && w.trans[head.value].isDefault then
               DefaultPending(w.trans, trs) == Pending(w.trans, head.value) && DefaultPending(w1.trans, trs[1..]) == []
             else
               && DefaultPending(w.trans, trs) == DefaultPending(w1.trans, trs[1..])
               && CallsBefore(w.trans, trs) == NodeCalls(w.trans, head, true) + CallsBefore(w1.trans, trs[1..])
    ensures w1.durable + NodesWork(w1, l, alive, net) == w.durable + NodesWork(w, l, alive, net)
  {
    hide DefaultPending;
    assert w.durable + [] == w.durable && w1.durable + [] == w1.durable;
  }

  /** A link whose list is empty is the link of no transaction. */
  lemma EmptyList(w: World, l: Addr)
    requires Inv(w, None) && l in w.links && w.links[l].trs == []
    ensures forall t :: t in w.trans ==> w.trans[t].link != Some(l)
    ensures DefaultPending(w.trans, []) == [] && w.durable + [] == w.durable
  {
    forall t | t in w.trans ensures w.trans[t].link != Some(l) { assert TransOnLink(w.links, w.trans[t], t, None); }
  }

  /** What the default transaction of the rest of the list has pending, once the head is gone. */
  lemma SameDefault(w: World, w1: World, l: Addr)
    requires Inv(w, None) && l in w.links && w.links[l].trs != [] && l in w1.links &&
             w1.links[l].trs == w.links[l].trs[1..]
    requires AllBut(w.trans, w1.trans, w.links[l].trs[0])
    ensures var (head, trs) := (w.links[l].trs[0], w.links[l].trs);
            if head.Some? && head.value in w.trans && w.trans[head.value].isDefault then
              DefaultPending(w.trans, trs) == Pending(w.trans, head.value) && DefaultPending(w1.trans, trs[1..]) == []
            else
              && DefaultPending(w.trans, trs) == DefaultPending(w1.trans, trs[1..])
              && CallsBefore(w.trans, trs) == NodeCalls(w.trans, head, true) + CallsBefore(w1.trans, trs[1..])
  {
    var trs := w.links[l].trs;
    assert ListOk(w.links[l], l, w.trans, None) && OneDefault(w.trans);
    HeadGone(trs);
    forall n | n in trs[1..] && n.Some? ensures n.value in w1.trans && w1.trans[n.value] == w.trans[n.value] &&
    w.trans[n.value].link == Some(l) {
      assert n in trs;
      var i :| 0 <= i < |trs[1..]| && trs[1..][i] == n;
      assert trs[i + 1] == n;
    }
    hide Inv;
    FirstDefaultLike(w.trans, w1.trans, trs[1..]);
    CallsLike(w.trans, w1.trans, trs[1..]);
    FirstDefaultIs(w.trans, trs[1..]);
    assert trs[0] in trs;
  }

  lemma {:induction false} CallsLike(T: map<Addr, Trans>, R: map<Addr, Trans>, trs: seq<Option<Addr>>)
    requires forall n :: n in trs && n.Some? ==> n.value in T && n.value in R && R[n.value] == T[n.value]
    ensures CallsBefore(R, trs) == CallsBefore(T, trs)
  {
    if trs != [] {
      assert trs[0] in trs;
      CallsLike(T, R, trs[1..]);
    }
  }

  /** Closing a link frees its default transaction, cuts off its explicit ones, touches no other transaction,
      and makes durable all that the default one had pending or nothing: all of it exactly when the attachment
      responds and the server accepts the commit, after one call for each started transaction before it. */
  lemma CloseSettles(w: World, l: Addr, net: Net)
    requires Inv(w, None) && l in w.links
    ensures var r := CloseLink(w, l, net);
            && l !in r.links && CutOff(w.trans, r.trans, l)
            && r.durable == w.durable +
                 if net(w.tick) && net(w.tick + 1 + CallsBefore(w.trans, w.links[l].trs))
                     then DefaultPending(w.trans, w.links[l].trs) else []
  {
    hide Inv, CloseNodes;
    TickKeeps(w, None);
    NodesCutOff(Tick(w), l, |w.links[l].trs|, net(w.tick), net);
    NodesCommit(Tick(w), l, |w.links[l].trs|, net(w.tick), net);
  }

  // ------------------------------------------------------------ batches

  lemma AddWorkBatches(w: World, t: Addr)
    ensures AddWork(w, t, Dml, NOTHING).batches == w.batches
  {}

  /** Executing a batch adds one piece of work to its transaction, or none; it can be executed once only. */
  lemma BatchRunsOnce(w: World, b: Addr, t: Addr, net: Net, again: Net)
    requires Inv(w, None) && b in w.batches && w.batches[b].wrapper && w.batches[b].trans == Some(t)
    ensures t in w.trans
    ensures var r := BatchExecute(w, b, net);
            && r.durable == w.durable
            && Pending(r.trans, t) == Pending(w.trans, t) +
               (if w.trans[t].handle.Some? && net(w.tick) then [w.next] else [])
            && (w.trans[t].handle.Some? && net(w.tick) ==> BatchExecute(r, b, again) == r)
  {
    hide Inv, AddWork;
    BatchedOf(w);
    assert BatchEnrolled(w.trans, w.batches[b], b);
    assert Pending(w.trans, t) + [] == Pending(w.trans, t);
    var w1 := Tick(w).(batches := w.batches[b := w.batches[b].(wrapper := false)]);
    if w.trans[t].handle.Some? {
      AddWorkAdds(w1, t, Dml, NOTHING);
      AddWorkBatches(w1, t);
    }
  }
}
