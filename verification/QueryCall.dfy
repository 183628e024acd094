/** fbird_query on a link, from the call to its return: what becomes of the work of the default transaction, and
    of the statement, for every reply of the execution. */
module QueryCall {
  import opened State
  import opened Transactions
  import opened Queries
  import opened Steps
  import opened Invariant
  import opened TransactionsKeep
  import opened StructureKeeps
  import opened LinksKeep
  import opened QueriesKeep
  import opened ExecKeeps
  import opened Outcomes
  import opened Effects

  // ------------------------------------------------------------ autocommit and the freeing of the statement

  lemma {:induction false} CloseCursorsKeepTrans(w: World, t: Addr, i: nat, end: nat, net: Net)
    ensures var w1 := CloseCursors(w, t, i, end, net).1;
            w1.queries.Keys == w.queries.Keys && forall q :: q in w.queries ==>
                w1.queries[q].trans == w.queries[q].trans
    decreases end - i
  {
    hide Shut, SameLayout;
    if i < end {
      if i in w.queries && w.queries[i].isOpen && w.queries[i].trans == Some(t) {
        CloseCursorsKeepTrans(Shut(w, i, net), t, i + 1, end, net);
      } else {
        CloseCursorsKeepTrans(w, t, i + 1, end, net);
      }
    }
  }

  lemma AutoCommitKeepsTrans(w: World, t: Addr, retry: bool, net: Net, q: Addr)
    requires q in w.queries && t in w.trans
    ensures var r := AutoCommit(w, t, retry, net); q in r.queries && r.queries[q].trans == w.queries[q].trans
  {
    hide CloseCursors, SameLayout, OnlyTrans;
    var w1 := TryCommit(w, t, net).1;
    CloseCursorsKeepTrans(w1, t, 0, w1.next, net);
    hide TryCommit, FreeHandle;
  }

  /** Freeing a query of an ended transaction commits nothing and starts nothing. */
  lemma FreeOnEnded(w: World, q: Addr, t: Addr, net: Net)
    requires Inv(w, None) && q in w.queries && w.queries[q].trans == Some(t) && w.queries[q].children == [] &&
             w.queries[q].parent.None?
    requires t in w.trans && w.trans[t].handle.None?
    ensures var r := FreeQuery(w, q, net); Ended(r, t, w.durable) && q !in r.queries
  {
    hide Inv, CloseForFree, DropStmt, CommitOnFree, RemoveQuery, ReleaseIfIdle, QueryOnLink;
    QueryLive(w, q, None);
    CloseOnEnded(w, q, t, net);
    assert FreeAll(w, q, [], w.next, net) == w;
    var w2 := DropStmt(CloseForFree(w, q, true, net), q);
    EndedNotCommitted(w2, q, t, w.queries[q].isOpen, net);
    RemovedUnreleased(w2, q, t, net);
    RemovedGone(w2, q, t, net);
  }

  lemma EndedNotCommitted(w: World, q: Addr, t: Addr, had: bool, net: Net)
    requires q in w.queries && w.queries[q].trans == Some(t) && t in w.trans && w.trans[t].handle.None?
    ensures CommitOnFree(w, q, had, net) == w
  {}

  lemma RemovedGone(w: World, q: Addr, t: Addr, net: Net)
    requires q in w.queries && w.queries[q].reg == Some(t) && w.queries[q].parent.None? && t in w.trans
    ensures q !in ReleaseIfIdle(RemoveQuery(w, q), t, net).queries
  {}

  lemma CloseOnEnded(w: World, q: Addr, t: Addr, net: Net)
    requires Inv(w, None) && q in w.queries && w.queries[q].trans == Some(t) && w.queries[q].parent.None?
    requires t in w.trans && w.trans[t].handle.None?
    ensures var r := DropStmt(CloseForFree(w, q, true, net), q);
            Ended(r, t, w.durable) && q in r.queries && SamePointers(w.queries[q], r.queries[q])
  {
    hide Inv, CloseForFree, DropStmt, QueryOnLink, Ended;
    ShutOnEnded(w, q, t, net);
    DropOnEnded(CloseForFree(w, q, true, net), q, t);
  }

  lemma ShutOnEnded(w: World, q: Addr, t: Addr, net: Net)
    requires Inv(w, None) && q in w.queries && w.queries[q].trans == Some(t) && w.queries[q].parent.None? &&
             t in w.trans
    ensures var r := CloseForFree(w, q, true, net);
            && q in r.queries && t in r.trans && SamePointers(w.queries[q], r.queries[q])
            && r.trans[t] == w.trans[t].(count := r.trans[t].count) && r.durable == w.durable
  {
    hide Inv, CursorClosed, Closed, SameLayout, OnlyFlags, QueryOnLink;
    QueryLive(w, q, None);
    CloseNeverReleases(w, q, net, None);
    ClosedLocal(w, q, t);
  }

  lemma DropOnEnded(w: World, q: Addr, t: Addr)
    requires q in w.queries && t in w.trans && w.trans[t].handle.None?
    ensures var r := DropStmt(w, q);
            Ended(r, t, w.durable) && q in r.queries && SamePointers(w.queries[q], r.queries[q])
  {}

  /** The tail of fbird_query for a statement without a result: nothing is left pending. */
  lemma DoneSettles(w: World, q: Addr, l: Addr, t: Addr, net: Net)
    requires Inv(w, None) && q in w.queries && w.queries[q].trans == Some(t) && w.queries[q].children == [] &&
             w.queries[q].parent.None?
    requires t in w.trans && l in w.links && !w.links[l].persistent
    ensures var r := Settle(QueryAutocommit(w, q, l, t, false, Done, net), q, Done, net);
            && t in r.trans && r.trans[t].handle.None? && q !in r.queries
            && (r.durable == w.durable || r.durable == w.durable + Pending(w.trans, t))
            && (net(w.tick) ==> r.durable == w.durable + Pending(w.trans, t))
  {
    hide Inv, AutoCommit, FreeQuery;
    assert w.durable + [] == w.durable;
    var w1 := QueryAutocommit(w, q, l, t, false, Done, net);
    if w.trans[t].handle.Some? {
      var retry := w.queries[q].kind.Ddl?;
      AutoCommitSettles(w, t, retry, net, None);
      AutoCommitKeeps(w, t, retry, net, None);
      AutoCommitKeepsTrans(w, t, retry, net, q);
    }
    FreeOnEnded(w1, q, t, net);
  }

  /** Freeing a closed statement without results commits nothing by itself; it may set off the idle release of
      its transaction. */
  lemma ClosedSettles(w: World, q: Addr, t: Addr, net: Net)
    requires Inv(w, None) && q in w.queries && w.queries[q].trans == Some(t) && w.queries[q].children == [] &&
             w.queries[q].parent.None?
    requires !w.queries[q].isOpen
    ensures t in w.trans && FreedClosed(w, FreeQuery(w, q, net), q, t, net)
  {
    hide Inv, DropStmt, RemoveQuery, ReleaseIfIdle, QueryOnLink, FreedClosed;
    QueryLive(w, q, None);
    FreshAddress(w, None);
    assert FreeAll(w, q, [], w.next, net) == w;
    var w1 := DropStmt(w, q);
    ClosedDrops(w, q, t);
    NotHad(w, q, net);
    RemoveQueryIs(w1, q);
    DropKeeps(w, q, None);
    RemoveQueryKeeps(w1, q, None);
    var w2 := RemoveQuery(w1, q);
    ReleaseIsSafe(w2, t, net, None);
    RemovedIs(w1, q, t);
    ReleasedIs(w, w2, q, t, net);
  }

  /** What is left of `t` once `q` is off its list decides about the release. */
  ghost predicate FreedClosed(w: World, r: World, q: Addr, t: Addr, net: Net)
    requires t in w.trans
  {
    && t in r.trans && q !in r.queries
    && if Idle(w.trans[t].(queries := Without(w.trans[t].queries, q))) then
         r.durable == w.durable + (if net(w.tick) then Pending(w.trans, t) else []) && !r.trans[t].retain
       else r.durable == w.durable && r.trans[t].handle == w.trans[t].handle && r.trans[t].retain == w.trans[t].retain
  }

  lemma ClosedDrops(w: World, q: Addr, t: Addr)
    requires q in w.queries
    ensures var r := DropStmt(w, q);
            && q in r.queries && SamePointers(w.queries[q], r.queries[q]) && Same(r.trans, w.trans) &&
               r.durable == w.durable
            && r.tick == w.tick && !(r.queries[q].owns && r.queries[q].stmt.Some?) &&
               !r.queries[q].isOpen == !w.queries[q].isOpen
  {
    DroppedIs(w, q);
  }

  /** A closed query has nothing to close and nothing to commit. */
  lemma NotHad(w: World, q: Addr, net: Net)
    requires q in w.queries && !w.queries[q].isOpen && q in DropStmt(w, q).queries
    ensures DestroyLeaf(w, q, true, net) ==
              var w2 := RemoveQuery(DropStmt(w, q), q);
              if w.queries[q].trans.Some? then ReleaseIfIdle(w2, w.queries[q].trans.value, net) else w2
  {
    hide DropStmt, RemoveQuery, ReleaseIfIdle;
  }

  lemma RemovedIs(w: World, q: Addr, t: Addr)
    requires q in w.queries && w.queries[q].reg == Some(t) && t in w.trans && w.queries[q].parent.None?
    ensures var r := RemoveQuery(w, q);
            && t in r.trans && Same(r.trans[t], w.trans[t].(queries := Without(w.trans[t].queries, q))) &&
               r.durable == w.durable
            && r.tick == w.tick && q !in r.queries
  {
    hide Without;
  }

  lemma ReleasedIs(w: World, w2: World, q: Addr, t: Addr, net: Net)
    requires t in w.trans && t in w2.trans && Same(w2.trans[t], w.trans[t].(queries := Without(w.trans[t].queries, q)))
    requires w2.durable == w.durable && w2.tick == w.tick && q !in w2.queries
    requires var r := ReleaseIfIdle(w2, t, net);
             if Idle(w2.trans[t]) then
               r.durable == w2.durable + (if net(w2.tick) then Pending(w2.trans, t) else []) && t in r.trans &&
               !r.trans[t].retain
             else r == w2
    ensures FreedClosed(w, ReleaseIfIdle(w2, t, net), q, t, net)
  {
    hide ReleaseIfIdle, Without;
  }

  // ------------------------------------------------------------ the execution

  /** A statement just prepared on a started default transaction. */
  ghost predicate Primed(w: World, q: Addr, t: Addr) {
    && q in w.queries && t in w.trans && w.trans[t].handle.Some? && w.queries[q].trans == Some(t)
    && !w.queries[q].explicit && !w.queries[q].isOpen && w.queries[q].stmt.Some? && w.queries[q].owns
    && w.queries[q].parent.None? && w.queries[q].children == []
  }

  /** Links keep their kind. */
  ghost predicate SameKinds(L: map<Addr, Link>, M: map<Addr, Link>) {
    forall l :: l in L ==> l in M && M[l].persistent == L[l].persistent
  }

  /** What an execution leaves: the statement on its transaction, closed unless it has a result that shares its
      cursor, and any result on the same transaction. */
  ghost predicate LeftBy(w: World, reply: Reply, r: World, q: Addr, t: Addr) {
    && SameKinds(w.links, r.links) && q in r.queries && r.queries[q].trans == Some(t)
    && (!reply.Result? ==> !r.queries[q].isOpen)
    && (reply.Result? && reply.q != q ==>
          && reply.q in r.queries && r.queries[reply.q].trans == Some(t)
          && (r.queries[reply.q].parent == Some(q) || (r.queries[reply.q].parent.None? && !r.queries[q].isOpen)))
  }

  lemma ShutLeaves(w: World, w1: World, q: Addr, t: Addr, net: Net)
    requires Inv(w1, None) && SameKinds(w.links, w1.links) && q in w1.queries && w1.queries[q].trans == Some(t)
    ensures LeftBy(w, Failure, Shut(w1, q, net), q, t) && LeftBy(w, Done, Shut(w1, q, net), q, t)
  {
    hide Inv, Shut;
    ErrorKeeps(w1, q, net, None);
  }

  /** Nothing but the flag of a RETURNING row changes in the query. */
  lemma RunLeaves(w: World, q: Addr, t: Addr, effect: Effect, net: Net)
    requires Primed(w, q, t)
    ensures var r := RunStatement(w, q, effect, net).1;
            Same(r.links, w.links) && (Same(r.queries, w.queries) ||
                Same(r.queries, w.queries[q := w.queries[q].(once := true)]))
  {
    hide AddWork, UseStmt;
    var w1 := UseStmt(w, w.queries[q].stmt.value);
    UseIs(w, q);
    AddWorkLinks(Tick(w1), t, w.queries[q].kind, effect);
  }

  lemma UseIs(w: World, q: Addr)
    requires q in w.queries && w.queries[q].stmt.Some?
    ensures var r := UseStmt(w, w.queries[q].stmt.value); r == w.(fault := r.fault)
  {}

  lemma AddWorkLinks(w: World, t: Addr, kind: Kind, effect: Effect)
    ensures var r := AddWork(w, t, kind, effect); Same(r.links, w.links) && Same(r.queries, w.queries)
  {}

  lemma FinishLeaves(w: World, q: Addr, t: Addr, net: Net)
    requires Inv(w, None) && q in w.queries && w.queries[q].trans == Some(t) && w.queries[q].stmt.Some? &&
             !w.queries[q].isOpen
    ensures var (reply, r) := Finish(w, q, net); LeftBy(w, reply, r, q, t)
  {
    hide Inv, DdlAutocommit, MakeResult, Shut, FinishSelect, LeftBy, QueryOnLink;
    QueryLive(w, q, None);
    DdlAutocommitKeeps(w, q, net, None);
    DdlLeaves(w, q, t, net);
    var w1 := DdlAutocommit(w, q, net);
    ShutLeaves(w, w1, q, t, net);
    TickKeeps(w1, None);
    ShutLeaves(w, Tick(w1), q, t, net);
    if w.queries[q].kind.Select? { SelectLeaves(w, q, t); }
    else if OneShot(w.queries[q].kind) && w.queries[q].columns > 0 { OneShotLeaves(w, q, t); }
  }

  lemma DdlLeaves(w: World, q: Addr, t: Addr, net: Net)
    requires Inv(w, None) && q in w.queries && w.queries[q].trans == Some(t)
    ensures var w1 := DdlAutocommit(w, q, net);
            SameKinds(w.links, w1.links) && q in w1.queries && w1.queries[q].trans == Some(t)
  {
    hide Inv, AutoCommit, QueryOnLink;
    QueryLive(w, q, None);
    if w.trans[t].handle.Some? {
      AutoCommitKeeps(w, t, true, net, None);
      AutoCommitKeepsTrans(w, t, true, net, q);
    }
  }

  lemma SelectLeaves(w: World, q: Addr, t: Addr)
    requires Inv(w, None) && q in w.queries && w.queries[q].trans == Some(t) && w.queries[q].stmt.Some? &&
             w.queries[q].kind.Select?
    ensures var (reply, r) := FinishSelect(w, q); LeftBy(w, reply, r, q, t)
  {
    hide Inv, MakeResult, CursorOpened, SetMore;
    var w1 := SetMore(CursorOpened(w, q), q, true);
    OpenedKinds(w, q);
    if w1.queries[q].columns > 0 {
      SelectMakesChild(w, q, t, None);
      ResultKinds(w1, q);
    }
  }

  lemma OpenedKinds(w: World, q: Addr)
    requires q in w.queries
    ensures var w1 := SetMore(CursorOpened(w, q), q, true);
            w1.links == w.links && q in w1.queries && w1.queries[q].trans == w.queries[q].trans &&
            w1.queries[q].columns == w.queries[q].columns
  {
    hide CursorOpened;
  }

  lemma ResultKinds(w: World, q: Addr)
    ensures MakeResult(w, q).1.links == w.links
  {
    hide CursorOpened, Adopted;
  }

  lemma OneShotLeaves(w: World, q: Addr, t: Addr)
    requires Inv(w, None) && q in w.queries && w.queries[q].trans == Some(t) && OneShot(w.queries[q].kind) &&
             !w.queries[q].isOpen
    ensures var (reply, r) := MakeResult(w, q); LeftBy(w, reply, r, q, t)
  {
    hide Inv, MakeResult;
    OneShotStandsAlone(w, q, t, None);
    ResultKinds(w, q);
  }

  lemma ControlLeaves(w: World, q: Addr, t: Addr, net: Net)
    requires Inv(w, None) && Primed(w, q, t) && w.queries[q].link in w.links
    ensures var (reply, r) := Control(w, q, net); LeftBy(w, reply, r, q, t)
  {
    hide Inv, Shut, SetTransaction, EndBySql, LeftBy;
    SetTransactionLeaves(w, q, t, net);
    EndBySqlLeaves(w, q, t, w.queries[q].kind.CommitSql?, net);
  }

  lemma SetTransactionLeaves(w: World, q: Addr, t: Addr, net: Net)
    requires Inv(w, None) && Primed(w, q, t) && w.queries[q].link in w.links
    ensures var (reply, r) := SetTransaction(w, q, w.queries[q].link, net); LeftBy(w, reply, r, q, t)
  {
    hide Inv, Shut;
    TickKeeps(w, None);
    ShutLeaves(w, Tick(w), q, t, net);
  }

  lemma EndBySqlLeaves(w: World, q: Addr, t: Addr, commit: bool, net: Net)
    requires Inv(w, None) && Primed(w, q, t)
    ensures var (reply, r) := EndBySql(w, q, t, commit, net); LeftBy(w, reply, r, q, t)
  {
    hide Inv, TryCommit, TryRollback, FreeHandle, Shut, SameLayout, OnlyTrans;
    SameEnds(w, t, net);
    CommitKeeps(w, t, net, None);
    RollbackKeeps(w, t, net, None);
    var w1 := if commit then TryCommit(w, t, net).1 else TryRollback(w, t, net).1;
    ShutLeaves(w, w1, q, t, net);
  }

  lemma SameEnds(w: World, t: Addr, net: Net)
    ensures forall r :: r == TryCommit(w, t, net).1 || r == TryRollback(w, t, net).1 ==>
              r.links == w.links && r.queries == w.queries && FreeHandle(r, t).queries == w.queries &&
              FreeHandle(r, t).links == w.links
  {}

  /** A statement that has just been prepared is not moved, whatever it turns out to do. */
  lemma ExecLeaves(w: World, q: Addr, t: Addr, input: Input, net: Net)
    requires Inv(w, None) && Primed(w, q, t) && Executable(w, q, input) && w.queries[q].link in w.links
    ensures var (reply, r) := Exec(w, q, input, net); LeftBy(w, reply, r, q, t)
  {
    hide Inv, Control, ExecPlain, LeftBy, Shut;
    ControlLeaves(w, q, t, net);
    if input.args < w.queries[q].inputs { SelfLeaves(w, q, t); }
    else if !IsControl(w.queries[q].kind) { PlainLeaves(w, q, t, input, net); }
  }

  lemma SelfLeaves(w: World, q: Addr, t: Addr)
    requires Primed(w, q, t)
    ensures LeftBy(w, Failure, w, q, t)
  {}

  lemma PlainLeaves(w: World, q: Addr, t: Addr, input: Input, net: Net)
    requires Inv(w, None) && Primed(w, q, t) && Executable(w, q, input) && input.args >= w.queries[q].inputs &&
             !IsControl(w.queries[q].kind)
    ensures var (reply, r) := ExecPlain(w, q, input, net); LeftBy(w, reply, r, q, t)
  {
    hide Inv, Bind, RunStatement, Finish, Shut, LeftBy;
    BindIs(w, q, input, None);
    ShutLeaves(w, w, q, t, net);
    RunKeeps(w, q, input.effect, net, None);
    RunLeaves(w, q, t, input.effect, net);
    var w1 := RunStatement(w, q, input.effect, net).1;
    ShutLeaves(w, w1, q, t, net);
    FinishLeaves(w1, q, t, net);
    SameStart(w, w1, q, t, net);
  }

  lemma SameStart(w: World, w1: World, q: Addr, t: Addr, net: Net)
    requires w1.links == w.links
    ensures var (reply, r) := Finish(w1, q, net); LeftBy(w1, reply, r, q, t) ==> LeftBy(w, reply, r, q, t)
  {
    hide Finish;
  }

  // ------------------------------------------------------------ the whole call

  /** Preparing on a started transaction leaves the work and the links alone when it succeeds. */
  lemma PreparedIsPrimed(w: World, l: Addr, t: Addr, kind: Kind, form: Form, net: Net)
    requires Inv(w, None) && l in w.links && Fits(w, l, false, t, None) && w.trans[t].handle.Some?
    ensures var (q, w1) := Prepare(w, l, t, false, kind, form, net);
            q.Some? ==>
              && Primed(w1, q.value, t) && w1.links == w.links && w1.durable == w.durable &&
                 w1.trans[t].handle == w.trans[t].handle
              && w1.queries[q.value].link == l && w1.queries[q.value].kind == kind &&
                 w1.queries[q.value].canBind == (w1.queries[q.value].inputs > 0)
  {
    hide Inv, Prepare;
    PrepareKeeps(w, l, t, false, kind, form, net, None);
    PreparedWork(w, l, t, kind, form, net);
  }

  lemma PreparedWork(w: World, l: Addr, t: Addr, kind: Kind, form: Form, net: Net)
    requires l in w.links && t in w.trans
    ensures var (q, w1) := Prepare(w, l, t, false, kind, form, net);
            q.Some? ==> w1.durable == w.durable && t in w1.trans && w1.trans[t].handle == w.trans[t].handle
  {
    hide FreeTree, Adopted;
  }

  /** The default transaction is found or made on the same kind of link, and started. */
  lemma DefaultIsStarted(w: World, l: Addr, dflt: seq<Byte>, net: Net)
    requires Inv(w, None) && l in w.links
    ensures var (t, w1) := DefTrans(w, l, dflt, net);
            && SameKinds(w.links, w1.links) && w1.durable == w.durable
            && (t.Some? ==> t.value in w1.trans && w1.trans[t.value].handle.Some?)
  {
    hide Inv, StartDefault;
    DefaultFound(w, l, None);
    var (t, w1) := DefaultSlot(w, l);
    SlotKinds(w, l);
    StartedIs(w1, t, dflt, net);
  }

  lemma SlotKinds(w: World, l: Addr)
    requires l in w.links
    ensures var w1 := DefaultSlot(w, l).1; SameKinds(w.links, w1.links) && w1.durable == w.durable
  {}

  lemma StartedIs(w: World, t: Addr, dflt: seq<Byte>, net: Net)
    ensures var (r, w1) := StartDefault(w, t, dflt, net);
            w1.durable == w.durable && w1.links == w.links &&
            (r.Some? ==> r.value in w1.trans && w1.trans[r.value].handle.Some?)
  {
    hide OnlyTrans, SameLayout;
  }

  /** What the call has come to once the statement ran and gave `reply`. */
  ghost predicate Outcome(w: World, reply: Reply, r: World, q: Addr, l: Addr, t: Addr, net: Net)
    requires l in w.links && t in w.trans
  {
    && t in r.trans && (q in r.queries <==> reply == Result(q))
    && match reply
       case Done =>
         if w.links[l].persistent then FreedClosed(w, r, q, t, net)
         else
           && r.trans[t].handle.None?
           && (r.durable == w.durable || r.durable == w.durable + Pending(w.trans, t))
           && (net(w.tick) ==> r.durable == w.durable + Pending(w.trans, t))
       case Result(c) => r.durable == w.durable && r.trans[t].handle == w.trans[t].handle && c in r.queries
       case _ => FreedClosed(w, r, q, t, net)
  }

  /** The end of the call, reply by reply. */
  lemma TailOutcome(w0: World, w: World, reply: Reply, q: Addr, l: Addr, t: Addr, net: Net)
    requires Inv(w, None) && LeftBy(w0, reply, w, q, t) && l in w0.links
    requires w.queries[q].owns && w.queries[q].stmt.Some? && w.queries[q].parent.None?
    requires w.queries[q].children == if IsChild(w, reply, q) then [reply.q] else []
    ensures l in w.links && t in w.trans
    ensures var r := if reply.Failure? then FreeQuery(w, q, net)
                     else Settle(QueryAutocommit(w, q, l, t, false, reply, net), q, reply, net);
            Outcome(w, reply, r, q, l, t, net)
  {
    hide Inv, FreeQuery, AutoCommit, QueryOnLink, Transfer, CursorClosed, Idle, Without;
    QueryLive(w, q, None);
    match reply {
      case Failure => ClosedSettles(w, q, t, net);
      case NewTransaction(_) => ClosedSettles(w, q, t, net);
      case Done => if w.links[l].persistent { ClosedSettles(w, q, t, net); } else { DoneSettles(w, q, l, t, net); }
      case Result(c) =>
        if c != q {
          if w.queries[c].parent == Some(q) { HandedOutcome(w, q, c, t, net); }
          else { StandingOutcome(w, q, c, t, net); }
        }
    }
  }

  lemma HandedOutcome(w: World, q: Addr, c: Addr, t: Addr, net: Net)
    requires Inv(w, None) && q in w.queries && c in w.queries && c != q && w.queries[q].owns &&
             w.queries[q].parent.None?
    requires w.queries[q].children == [c] && w.queries[c].parent == Some(q) &&
             w.queries[q].trans == w.queries[c].trans == Some(t)
    ensures var r := Settle(w, q, Result(c), net);
            t in w.trans && t in r.trans && q !in r.queries && c in r.queries && r.durable == w.durable &&
            r.trans[t].handle == w.trans[t].handle
  {
    hide Inv, Settle, QueryOnLink;
    QueryLive(w, q, None);
    SettleHandsOver(w, q, c, t, net, None);
  }

  lemma StandingOutcome(w: World, q: Addr, c: Addr, t: Addr, net: Net)
    requires Inv(w, None) && q in w.queries && c in w.queries && c != q && w.queries[q].parent.None? &&
             w.queries[q].children == []
    requires w.queries[q].trans == w.queries[c].trans == Some(t) && !w.queries[q].isOpen
    ensures var r := FreeQuery(w, q, net);
            t in w.trans && t in r.trans && q !in r.queries && c in r.queries && r.durable == w.durable &&
            r.trans[t].handle == w.trans[t].handle
  {
    hide Inv, FreeTree, QueryOnLink, Without;
    QueryLive(w, q, None);
    QueryLive(w, c, None);
    WithoutIn(w.trans[t].queries, q, c);
    ClosedSettles(w, q, t, net);
    FreeKeepsOthers(w, q, c, net);
  }

  lemma FreeKeepsOthers(w: World, q: Addr, c: Addr, net: Net)
    requires Inv(w, None) && q in w.queries && c in w.queries && c != q && w.queries[q].children == [] &&
             !w.queries[q].isOpen && w.queries[q].parent.None?
    ensures c in FreeQuery(w, q, net).queries
  {
    hide Inv, DropStmt, RemoveQuery, ReleaseIfIdle, QueryOnLink;
    QueryLive(w, q, None);
    ClosedDrops(w, q, 0);
    NotHad(w, q, net);
    assert FreeAll(w, q, [], w.next, net) == w;
    DropAround(w, q);
    RemoveQueryIs(DropStmt(w, q), q);
    PrunedKeys(DropStmt(w, q).queries, q);
  }

  /** fbird_query on a link: without a default transaction, or when the statement cannot be prepared, that is
      all; otherwise the reply of the execution decides what becomes of the work. */
  lemma QueryOutcome(w: World, l: Addr, kind: Kind, form: Form, input: Input, net: Net)
    requires Inv(w, None) && l in w.links
    ensures var r := RunTarget(w, OnLink(l), kind, form, input, net);
            var (t, w1) := DefTrans(w, l, input.dflt, net);
            if t.None? then r == w1 && r.durable == w.durable
            else
              && t.value in w1.trans && w1.durable == w.durable
              && var (q, w2) := Prepare(w1, l, t.value, false, kind, form, net);
                 if q.None? then r == w2
                 else
                   && w2.durable == w.durable && t.value in w2.trans &&
                      w2.trans[t.value].handle == w1.trans[t.value].handle
                   && var (reply, w3) := Exec(w2, q.value, input, net);
                      && l in w3.links && w3.links[l].persistent == w.links[l].persistent && t.value in w3.trans
                      && Outcome(w3, reply, r, q.value, l, t.value, net)
  {
    hide Inv, DefTrans, Prepare, Exec, QueryAutocommit, Settle, FreeTree, Outcome, LeftBy, Executed;
    DefTransKeeps(w, l, input.dflt, net, None);
    DefaultIsStarted(w, l, input.dflt, net);
    var (t, w1) := DefTrans(w, l, input.dflt, net);
    if t.Some? {
      PrepareKeeps(w1, l, t.value, false, kind, form, net, None);
      PreparedIsPrimed(w1, l, t.value, kind, form, net);
      var (q, w2) := Prepare(w1, l, t.value, false, kind, form, net);
      if q.Some? { PrimedOutcome(w2, q.value, l, t.value, input, net); }
    }
  }

  /** From the execution on. */
  lemma PrimedOutcome(w: World, q: Addr, l: Addr, t: Addr, input: Input, net: Net)
    requires Inv(w, None) && Primed(w, q, t) && Executable(w, q, input) && w.queries[q].link == l && l in w.links
    ensures var (reply, w1) := Exec(w, q, input, net);
            var r := if reply.Failure? then FreeQuery(w1, q, net)
                     else Settle(QueryAutocommit(w1, q, l, t, false, reply, net), q, reply, net);
            && l in w1.links && w1.links[l].persistent == w.links[l].persistent && t in w1.trans
            && Outcome(w1, reply, r, q, l, t, net)
  {
    hide Inv, Exec, QueryAutocommit, Settle, FreeTree, Outcome, LeftBy, Executed;
    ExecLeaves(w, q, t, input, net);
    WholeExecKeeps(w, q, input, net, None);
    var (reply, w1) := Exec(w, q, input, net);
    ExecutedIs(w, reply, w1, q);
    TailOutcome(w, w1, reply, q, l, t, net);
    LeftKinds(w, reply, w1, q, t);
  }

  lemma ExecutedIs(w: World, reply: Reply, r: World, q: Addr)
    requires Executed(w, reply, r, q)
    ensures q in w.queries && q in r.queries &&
            SameIdentity(w.queries[q].(children := r.queries[q].children), r.queries[q])
    ensures r.queries[q].children == if IsChild(r, reply, q) then [reply.q] + w.queries[q].children
            else w.queries[q].children
  {}

  lemma LeftKinds(w: World, reply: Reply, r: World, q: Addr, t: Addr)
    requires LeftBy(w, reply, r, q, t)
    ensures SameKinds(w.links, r.links)
  {}

  /** A statement without a result that has run leaves one new piece of work pending. */
  lemma RunPends(w: World, q: Addr, t: Addr, input: Input, net: Net)
    requires Inv(w, None) && Primed(w, q, t) && Executable(w, q, input) && OneShot(w.queries[q].kind) &&
             w.queries[q].columns == 0
    ensures var (reply, r) := Exec(w, q, input, net);
            reply.Done? ==> r.durable == w.durable && Pending(r.trans, t) == Pending(w.trans, t) + [w.next]
  {
    hide Inv, Bind, RunStatement, Shut;
    if input.args >= w.queries[q].inputs {
      BindIs(w, q, input, None);
      RunKeeps(w, q, input.effect, net, None);
      RunLeaves(w, q, t, input.effect, net);
      RunningAddsWork(w, q, input.effect, net, t, None);
      var w1 := RunStatement(w, q, input.effect, net).1;
      TickKeeps(w1, None);
      QuietShut(Tick(w1), q, t, net);
    }
  }

  lemma QuietShut(w: World, q: Addr, t: Addr, net: Net)
    requires Inv(w, None) && q in w.queries
    ensures var r := Shut(w, q, net);
            r.durable == w.durable && (t in w.trans ==> Pending(r.trans, t) == Pending(w.trans, t))
  {
    hide Inv, Shut;
    ShutHandles(w, q, net, None);
    ShutCommitsNothing(w, q, net, None);
  }

  lemma PreparedColumns(w: World, l: Addr, t: Addr, kind: Kind, form: Form, net: Net)
    requires Inv(w, None) && l in w.links && Fits(w, l, false, t, None)
    ensures var (q, w1) := Prepare(w, l, t, false, kind, form, net);
            q.Some? ==> q.value in w1.queries && w1.queries[q.value].columns == form.columns
  {
    hide Inv, NewQuery, PrepareOn;
    BirthKeeps(w, l, t, false, kind, None);
    PrepareOnKeeps(NewQuery(w, t, FreshQuery(l, false, kind)), w.next, t, form, net, None);
  }

  /** INSERT, UPDATE, DELETE or a procedure without a result, given to fbird_query on a link that is not
      persistent, is committed together with everything that was pending before it, or lost with all of it;
      nothing is left pending. */
  lemma QuerySettlesItsWork(w: World, l: Addr, kind: Kind, input: Input, inputs: nat, net: Net)
    requires Inv(w, None) && l in w.links && !w.links[l].persistent && OneShot(kind)
    ensures var r := RunTarget(w, OnLink(l), kind, Form(0, inputs), input, net);
            var (t, w1) := DefTrans(w, l, input.dflt, net);
            t.Some? ==>
              var (q, w2) := Prepare(w1, l, t.value, false, kind, Form(0, inputs), net);
              q.Some? && Exec(w2, q.value, input, net).0.Done? ==>
                && t.value in r.trans && r.trans[t.value].handle.None? && q.value !in r.queries
                && (r.durable == w.durable || r.durable == w.durable + (Pending(w1.trans, t.value) + [w2.next]))
  {
    hide Inv, DefTrans, Prepare, Exec, RunTarget;
    var form := Form(0, inputs);
    QueryOutcome(w, l, kind, form, input, net);
    DefTransKeeps(w, l, input.dflt, net, None);
    DefaultIsStarted(w, l, input.dflt, net);
    var (t, w1) := DefTrans(w, l, input.dflt, net);
    if t.Some? {
      PrepareKeeps(w1, l, t.value, false, kind, form, net, None);
      PreparedIsPrimed(w1, l, t.value, kind, form, net);
      PreparedColumns(w1, l, t.value, kind, form, net);
      var (q, w2) := Prepare(w1, l, t.value, false, kind, form, net);
      if q.Some? { RunPends(w2, q.value, t.value, input, net); }
    }
  }
}
