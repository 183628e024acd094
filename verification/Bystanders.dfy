/** A call that prepares, runs and frees a statement of its own leaves every other query and every batch enrolled
    where it is. */
module Bystanders {
  import opened State
  import opened Transactions
  import opened Queries
  import opened Invariant
  import opened TransactionsKeep
  import opened StructureKeeps
  import opened LinksKeep
  import opened QueriesKeep
  import opened ExecKeeps
  import opened Outcomes
  import opened Cascade

  /** What can be enrolled on a transaction. */
  datatype User = ByQuery(q: Addr) | ByBatch(b: Addr)

  predicate Uses(w: World, y: User, t: Addr) {
    match y
    case ByQuery(x) => x < w.next && x in w.queries && w.queries[x].trans == Some(t)
    case ByBatch(b) => b in w.batches && w.batches[b].trans == Some(t)
  }

  /** A user of a transaction keeps it from being empty. */
  lemma UserListed(w: World, y: User, t: Addr, aux: Option<Addr>)
    requires Inv(w, aux) && Uses(w, y, t)
    ensures t in w.trans && (w.trans[t].queries != [] || w.trans[t].batches != [])
  {
    match y {
      case ByQuery(x) => assert QueryEnrolled(w.trans, w.queries[x], x);
      case ByBatch(b) => assert BatchEnrolled(w.trans, w.batches[b], b);
    }
  }

  /** Whatever is enrolled is a user. */
  lemma ListedUser(w: World, t: Addr, aux: Option<Addr>) returns (y: User)
    requires Inv(w, aux) && t in w.trans && (w.trans[t].queries != [] || w.trans[t].batches != [])
    ensures Uses(w, y, t)
  {
    assert RegistryOk(w.trans[t], t, w.queries) && BatchRegistryOk(w.trans[t], t, w.batches);
    if w.trans[t].queries != [] {
      y := ByQuery(w.trans[t].queries[0]);
      assert QueryEnrolled(w.trans, w.queries[y.q], y.q);
    } else {
      y := ByBatch(w.trans[t].batches[0]);
      assert BatchEnrolled(w.trans, w.batches[y.b], y.b);
    }
  }

  // ------------------------------------------------------------ the steps of an execution

  lemma LayoutUses(w: World, r: World, y: User, t: Addr)
    requires SameLayout(w, r) && Same(r.queries, w.queries) && Uses(w, y, t)
    ensures Uses(r, y, t)
  {}

  lemma FlagsUse(w: World, r: World, q: Addr, y: User, t: Addr)
    requires SameLayout(w, r) && OnlyFlags(w.queries, r.queries, q) && Uses(w, y, t)
    ensures Uses(r, y, t)
  {}

  lemma DefTransUses(w: World, l: Addr, dflt: seq<Byte>, net: Net, y: User, t: Addr)
    requires Uses(w, y, t)
    ensures Uses(DefTrans(w, l, dflt, net).1, y, t)
  {
    hide StartDefault, SameLayout;
    if Walkable(w, l) {
      var (u, w1) := DefaultSlot(w, l);
      assert Uses(w1, y, t);
      LayoutUses(w1, StartDefault(w1, u, dflt, net).1, y, t);
    }
  }

  lemma EnsureUses(w: World, q: Addr, dflt: seq<Byte>, net: Net, y: User, t: Addr)
    requires Uses(w, y, t) && y != ByQuery(q)
    ensures Uses(EnsureDefault(w, q, dflt, net).1, y, t)
  {
    hide DefTrans, Left;
    if q in w.queries { DefTransUses(Unenroll(w, q), w.queries[q].link, dflt, net, y, t); }
  }

  lemma GateUses(w: World, q: Addr, net: Net, y: User, t: Addr)
    requires Uses(w, y, t)
    ensures Uses(DdlGate(w, q, net).1, y, t)
  {
    hide TryCommit, FreeHandle, Start, SameLayout, Uses;
    FaultUses(w, y, t);
    if q in w.queries && w.queries[q].trans.Some? {
      var u := w.queries[q].trans.value;
      var w1 := TryCommit(w, u, net).1;
      LayoutUses(w, w1, y, t);
      LayoutUses(w1, FreeHandle(w1, u), y, t);
      if u in w.trans { LayoutUses(FreeHandle(w1, u), Start(FreeHandle(w1, u), u, w.trans[u].tpb, net).1, y, t); }
    }
  }

  lemma FaultUses(w: World, y: User, t: Addr)
    requires Uses(w, y, t)
    ensures Uses(Fault(w), y, t) && Uses(Tick(w), y, t)
  {}

  lemma RunUses(w: World, q: Addr, effect: Effect, net: Net, y: User, t: Addr)
    requires Uses(w, y, t) && y != ByQuery(q)
    ensures Uses(RunStatement(w, q, effect, net).1, y, t)
  {
    hide AddWork, UseStmt, SetQ, Uses;
    FaultUses(w, y, t);
    if q in w.queries && w.queries[q].trans.Some? && w.queries[q].stmt.Some? {
      var (qq, w1) := (w.queries[q], UseStmt(w, w.queries[q].stmt.value));
      HandleUses(w, qq.stmt.value, y, t);
      FaultUses(w1, y, t);
      WorkUses(Tick(w1), qq.trans.value, qq.kind, effect, y, t);
      var w2 := AddWork(Tick(w1), qq.trans.value, qq.kind, effect);
      FaultUses(w2, y, t);
      FaultUses(Tick(w2), y, t);
      if q in w2.queries { FlagUses(Tick(Tick(w2)), q, w2.queries[q].(once := true), y, t); }
    }
  }

  lemma HandleUses(w: World, s: Addr, y: User, t: Addr)
    requires Uses(w, y, t)
    ensures Uses(UseStmt(w, s), y, t)
  {}

  lemma FlagUses(w: World, q: Addr, qq: Query, y: User, t: Addr)
    requires Uses(w, y, t) && y != ByQuery(q)
    ensures Uses(SetQ(w, q, qq), y, t)
  {}

  lemma WorkUses(w: World, u: Addr, kind: Kind, effect: Effect, y: User, t: Addr)
    requires Uses(w, y, t)
    ensures Uses(AddWork(w, u, kind, effect), y, t)
  {}

  lemma {:induction false} CursorsUse(w: World, u: Addr, i: nat, end: nat, net: Net, y: User, t: Addr)
    requires Uses(w, y, t)
    ensures Uses(CloseCursors(w, u, i, end, net).1, y, t)
    decreases end - i
  {
    hide Shut, SameLayout, OnlyFlags, Uses;
    if i < end {
      FlagsUse(w, Shut(w, i, net), i, y, t);
      CursorsUse(Shut(w, i, net), u, i + 1, end, net, y, t);
      CursorsUse(w, u, i + 1, end, net, y, t);
    }
  }

  lemma AutoCommitUses(w: World, u: Addr, retry: bool, net: Net, y: User, t: Addr)
    requires Uses(w, y, t)
    ensures Uses(AutoCommit(w, u, retry, net), y, t)
  {
    hide TryCommit, FreeHandle, CloseCursors, SameLayout, Uses;
    FaultUses(w, y, t);
    var w1 := TryCommit(w, u, net).1;
    LayoutUses(w, w1, y, t);
    LayoutUses(w1, FreeHandle(w1, u), y, t);
    CursorsUse(w1, u, 0, w1.next, net, y, t);
    var w2 := CloseCursors(w1, u, 0, w1.next, net).1;
    LayoutUses(w2, FreeHandle(w2, u), y, t);
    var w3 := TryCommit(w2, u, net).1;
    LayoutUses(w2, w3, y, t);
    LayoutUses(w3, FreeHandle(w3, u), y, t);
  }

  lemma NewQueryUses(w: World, u: Addr, qq: Query, y: User, t: Addr)
    requires Uses(w, y, t)
    ensures Uses(NewQuery(w, u, qq), y, t)
  {}

  lemma MakeUses(w: World, q: Addr, y: User, t: Addr)
    requires Uses(w, y, t)
    ensures Uses(MakeResult(w, q).1, y, t)
  {
    hide NewQuery, CursorOpened, SameLayout, OnlyFlags, Uses;
    FaultUses(w, y, t);
    if q in w.queries && w.queries[q].trans.Some? {
      var w1 := NewQuery(w, w.queries[q].trans.value, ResultOf(w.queries[q], q));
      NewQueryUses(w, w.queries[q].trans.value, ResultOf(w.queries[q], q), y, t);
      FlagsUse(w1, CursorOpened(w1, w.next), w.next, y, t);
    }
  }

  lemma SelectUses(w: World, q: Addr, y: User, t: Addr)
    requires Uses(w, y, t)
    ensures Uses(FinishSelect(w, q).1, y, t)
  {
    hide MakeResult, CursorOpened, SetMore, SameLayout, OnlyFlags, Uses;
    FlagsUse(w, CursorOpened(w, q), q, y, t);
    var w1 := SetMore(CursorOpened(w, q), q, true);
    FlagsUse(CursorOpened(w, q), w1, q, y, t);
    FaultUses(w1, y, t);
    MakeUses(w1, q, y, t);
  }

  lemma FinishUses(w: World, q: Addr, net: Net, y: User, t: Addr)
    requires Uses(w, y, t)
    ensures Uses(Finish(w, q, net).1, y, t)
  {
    hide FinishSelect, MakeResult, DdlAutocommit, Shut, SameLayout, OnlyFlags, Uses;
    FaultUses(w, y, t);
    DdlUses(w, q, net, y, t);
    var w1 := DdlAutocommit(w, q, net);
    SelectUses(w1, q, y, t);
    MakeUses(w1, q, y, t);
    FaultUses(w1, y, t);
    FlagsUse(w1, Shut(w1, q, net), q, y, t);
    FlagsUse(Tick(w1), Shut(Tick(w1), q, net), q, y, t);
  }

  lemma DdlUses(w: World, q: Addr, net: Net, y: User, t: Addr)
    requires Uses(w, y, t)
    ensures Uses(DdlAutocommit(w, q, net), y, t)
  {
    hide AutoCommit, Uses;
    FaultUses(w, y, t);
    if q in w.queries && w.queries[q].trans.Some? { AutoCommitUses(w, w.queries[q].trans.value, true, net, y, t); }
  }

  lemma ControlUses(w: World, q: Addr, net: Net, y: User, t: Addr)
    requires Uses(w, y, t)
    ensures Uses(Control(w, q, net).1, y, t)
  {
    hide Shut, EndBySql, SetTransaction, SameLayout, OnlyFlags, Uses;
    FaultUses(w, y, t);
    FlagsUse(w, Shut(w, q, net), q, y, t);
    if q in w.queries {
      SetTransUses(w, q, w.queries[q].link, net, y, t);
      if w.queries[q].trans.Some? {
        EndSqlUses(w, q, w.queries[q].trans.value, w.queries[q].kind.CommitSql?, net, y, t);
      }
    }
  }

  lemma SetTransUses(w: World, q: Addr, l: Addr, net: Net, y: User, t: Addr)
    requires Uses(w, y, t)
    ensures Uses(SetTransaction(w, q, l, net).1, y, t)
  {
    hide Shut, SameLayout, OnlyFlags;
    FlagsUse(Tick(w), Shut(Tick(w), q, net), q, y, t);
  }

  lemma EndSqlUses(w: World, q: Addr, u: Addr, commit: bool, net: Net, y: User, t: Addr)
    requires Uses(w, y, t)
    ensures Uses(EndBySql(w, q, u, commit, net).1, y, t)
  {
    hide Shut, TryCommit, TryRollback, FreeHandle, SameLayout, OnlyFlags, Uses;
    FaultUses(w, y, t);
    FlagsUse(w, Shut(w, q, net), q, y, t);
    var w1 := if commit then TryCommit(w, u, net).1 else TryRollback(w, u, net).1;
    LayoutUses(w, w1, y, t);
    LayoutUses(w1, FreeHandle(w1, u), y, t);
    FlagsUse(w1, Shut(w1, q, net), q, y, t);
  }

  lemma PlainUses(w: World, q: Addr, input: Input, net: Net, y: User, t: Addr)
    requires Uses(w, y, t) && y != ByQuery(q)
    ensures Uses(ExecPlain(w, q, input, net).1, y, t)
  {
    hide EnsureDefault, DdlGate, RunStatement, Finish, Shut, SameLayout, OnlyFlags, Uses;
    FaultUses(w, y, t);
    FlagsUse(w, Shut(w, q, net), q, y, t);
    FlagsUse(Fault(w), Shut(Fault(w), q, net), q, y, t);
    EnsureUses(w, q, input.dflt, net, y, t);
    var w2 := EnsureDefault(w, q, input.dflt, net).1;
    GateUses(w2, q, net, y, t);
    var w3 := DdlGate(w2, q, net).1;
    FlagsUse(w3, Shut(w3, q, net), q, y, t);
    RunUses(w3, q, input.effect, net, y, t);
    var w4 := RunStatement(w3, q, input.effect, net).1;
    FlagsUse(w4, Shut(w4, q, net), q, y, t);
    FinishUses(w4, q, net, y, t);
  }

  lemma ExecUses(w: World, q: Addr, input: Input, net: Net, y: User, t: Addr)
    requires Uses(w, y, t) && y != ByQuery(q)
    ensures Uses(Exec(w, q, input, net).1, y, t)
  {
    hide CloseForReexec, Control, ExecPlain, Uses;
    FaultUses(w, y, t);
    ReexecUses(w, q, net, y, t);
    ControlUses(CloseForReexec(w, q, net), q, net, y, t);
    PlainUses(CloseForReexec(w, q, net), q, input, net, y, t);
  }

  lemma ReexecUses(w: World, q: Addr, net: Net, y: User, t: Addr)
    requires Uses(w, y, t)
    ensures Uses(CloseForReexec(w, q, net), y, t)
  {
    hide Shut, SameLayout, OnlyFlags, Uses;
    FaultUses(w, y, t);
    FlagsUse(w, Shut(w, q, net), q, y, t);
    FlagsUse(Fault(w), Shut(Fault(w), q, net), q, y, t);
  }

  // ------------------------------------------------------------ one-shot calls

  /** What the call has made itself is at a later address. */
  predicate Before(y: User, q: Addr) { y.ByQuery? ==> y.q < q }

  lemma FreeUses(w: World, q: Addr, net: Net, aux: Option<Addr>, y: User, t: Addr)
    requires Inv(w, aux) && Fetched(w, q) && Uses(w, y, t) && Before(y, q)
    ensures Uses(FreeQuery(w, q, net), y, t)
  {
    hide Inv, FreeTree;
    FreeQueryKeeps(w, q, net, aux);
    FreeRemoves(w, q, net, aux);
    TreeQuiet(w, q, true, w.next, net);
    if y.ByQuery? && Under(w.queries, y.q, q) { UnderAbove(w.queries, y.q, q); }
  }

  lemma PrepareUses(w: World, l: Addr, u: Addr, explicit: bool, kind: Kind, form: Form, net: Net, aux: Option<Addr>,
                    y: User, t: Addr)
    requires Inv(w, aux) && l in w.links && Fits(w, l, explicit, u, aux) && Uses(w, y, t)
    ensures var (q, w1) := Prepare(w, l, u, explicit, kind, form, net);
            Uses(w1, y, t) && (q.Some? ==> Before(y, q.value))
  {
    hide Inv, NewQuery, PrepareOn;
    BirthKeeps(w, l, u, explicit, kind, aux);
    NewQueryUses(w, u, FreshQuery(l, explicit, kind), y, t);
    PrepareOnUses(NewQuery(w, u, FreshQuery(l, explicit, kind)), w.next, u, form, net, aux, y, t);
    PrepareOnKeeps(NewQuery(w, u, FreshQuery(l, explicit, kind)), w.next, u, form, net, aux);
  }

  lemma PrepareOnUses(w: World, q: Addr, u: Addr, form: Form, net: Net, aux: Option<Addr>, y: User, t: Addr)
    requires Inv(w, aux) && u in w.trans && q in w.queries && Uses(w, y, t) && Before(y, q)
    requires w.queries[q].stmt.None? && w.queries[q].owns && w.queries[q].parent.None? && !w.queries[q].isOpen
    ensures Uses(PrepareOn(w, q, u, form, net).1, y, t)
  {
    hide Inv, FreeQuery, AttachStmt, Describe, Uses;
    TickKeeps(w, aux);
    FaultUses(w, y, t);
    FreeUses(w, q, net, aux, y, t);
    FreeUses(Tick(w), q, net, aux, y, t);
    if w.trans[u].handle.Some? && net(w.tick) {
      AttachKeeps(Tick(w), q, aux);
      AttachIs(Tick(w), q);
      AttachUses(Tick(w), q, y, t);
      DescribeUses(AttachStmt(Tick(w), q), q, form, net, aux, y, t);
    }
  }

  lemma AttachUses(w: World, q: Addr, y: User, t: Addr)
    requires Uses(w, y, t) && q in w.queries
    ensures Uses(AttachStmt(w, q), y, t)
  {}

  lemma DescribeUses(w: World, q: Addr, form: Form, net: Net, aux: Option<Addr>, y: User, t: Addr)
    requires Inv(w, aux) && Fetched(w, q) && Uses(w, y, t) && Before(y, q)
    ensures Uses(Describe(w, q, form, net).1, y, t)
  {
    hide Inv, FreeQuery;
    TickKeeps(w, aux);
    FreeUses(Tick(w), q, net, aux, y, t);
  }

  lemma SettleUses(w: World, q: Addr, reply: Reply, net: Net, aux: Option<Addr>, y: User, t: Addr)
    requires Inv(w, aux) && q in w.queries && w.queries[q].owns && w.queries[q].stmt.Some?
    requires w.queries[q].children == if IsChild(w, reply, q) then [reply.q] else []
    requires Uses(w, y, t) && Before(y, q)
    ensures Uses(Settle(w, q, reply, net), y, t)
  {
    hide Inv, FreeQuery, Transfer, CursorClosed, Uses;
    FreeUses(w, q, net, aux, y, t);
    if IsChild(w, reply, q) {
      var w1 := Transfer(w, q, reply.q);
      TransferKeeps(w, q, reply.q, aux);
      TransferIs(w, q, reply.q);
      TransferUses(w, q, reply.q, y, t);
      ClosedKeeps(w1, q, net, aux);
      FlagsUse(w1, CursorClosed(w1, q, net), q, y, t);
      FreeUses(CursorClosed(w1, q, net), q, net, aux, y, t);
    }
  }

  lemma TransferUses(w: World, q: Addr, r: Addr, y: User, t: Addr)
    requires Uses(w, y, t)
    ensures Uses(Transfer(w, q, r), y, t)
  {}

  lemma RunOnceUses(w: World, l: Addr, u: Addr, explicit: bool, kind: Kind, form: Form, input: Input, net: Net, y: User,
                    t: Addr)
    requires Inv(w, None) && l in w.links && Fits(w, l, explicit, u, None) && Uses(w, y, t)
    ensures Uses(RunOnce(w, l, u, explicit, kind, form, input, net), y, t)
  {
    hide Inv, Prepare, Exec, FreeQuery, Settle, QueryAutocommit, Uses, SameLayout;
    PrepareKeeps(w, l, u, explicit, kind, form, net, None);
    PrepareUses(w, l, u, explicit, kind, form, net, None, y, t);
    var (q, w1) := Prepare(w, l, u, explicit, kind, form, net);
    if q.Some? {
      WholeExecKeeps(w1, q.value, input, net, None);
      ExecUses(w1, q.value, input, net, y, t);
      var (reply, w2) := Exec(w1, q.value, input, net);
      FreeUses(w2, q.value, net, None, y, t);
      QueryAutocommitKeeps(w2, q.value, l, u, explicit, reply, net, None);
      AutocommitUses(w2, q.value, l, u, explicit, reply, net, y, t);
      var w3 := QueryAutocommit(w2, q.value, l, u, explicit, reply, net);
      if !reply.Failure? { SettleUses(w3, q.value, reply, net, None, y, t); }
    }
  }

  lemma AutocommitUses(w: World, q: Addr, l: Addr, u: Addr, explicit: bool, reply: Reply, net: Net, y: User, t: Addr)
    requires Uses(w, y, t)
    ensures Uses(QueryAutocommit(w, q, l, u, explicit, reply, net), y, t)
  {
    hide AutoCommit, Uses;
    FaultUses(w, y, t);
    if q in w.queries { AutoCommitUses(w, u, w.queries[q].kind.Ddl?, net, y, t); }
  }

  // ------------------------------------------------------------ fbird_execute_auto

  /** Only the users of the transaction that ends lose it. */
  lemma DetachUses(w: World, u: Addr, aux: Option<Addr>, y: User, t: Addr)
    requires Inv(w, aux) && u in w.trans && u != t && Uses(w, y, t)
    ensures Uses(DetachAndFree(w, u), y, t)
  {
    assert RegistryOk(w.trans[u], u, w.queries) && BatchRegistryOk(w.trans[u], u, w.batches);
    match y {
      case ByQuery(x) => assert QueryEnrolled(w.trans, w.queries[x], x);
      case ByBatch(b) => assert BatchEnrolled(w.trans, w.batches[b], b);
    }
  }

  lemma AuxEndUses(w: World, u: Addr, commit: bool, net: Net, y: User, t: Addr)
    requires Inv(w, Some(u)) && u in w.trans && u != t && Uses(w, y, t)
    ensures Uses(DetachAndFree(EndAndDrop(w, u, true, commit, net), u), y, t)
  {
    hide Inv, EndAndDrop, DetachAndFree, SameLayout, OnlyTrans, Uses;
    EndAndDropKeeps(w, u, true, commit, net, Some(u));
    LayoutUses(w, EndAndDrop(w, u, true, commit, net), y, t);
    StaysThere(w, EndAndDrop(w, u, true, commit, net), u);
    DetachUses(EndAndDrop(w, u, true, commit, net), u, Some(u), y, t);
  }

  lemma StaysThere(w: World, r: World, u: Addr)
    requires SameLayout(w, r) && u in w.trans
    ensures u in r.trans
  {}

  lemma AutoUses(w: World, l: Addr, kind: Kind, form: Form, input: Input, net: Net, y: User, t: Addr)
    requires Inv(w, None) && l in w.links && t in w.trans && Uses(w, y, t)
    ensures Uses(ExecuteAuto(w, l, kind, form, input, net), y, t)
  {
    hide Inv, Prepare, Exec, FreeQuery, DetachAndFree, EndAndDrop, Uses, Before;
    FaultUses(w, y, t);
    AuxBegins(w, l, y, t);
    var u := w.next;
    var tr := FreshTrans(l, false, [], true, Some(Handle([], [], false)));
    var w0 := Tick(w).(trans := w.trans[u := tr], next := u + 1);
    PrepareKeeps(w0, l, u, false, kind, form, net, Some(u));
    PrepareUses(w0, l, u, false, kind, form, net, Some(u), y, t);
    var (q, w1) := Prepare(w0, l, u, false, kind, form, net);
    AuxEndUses(w1, u, false, net, y, t);
    if q.Some? { AutoRunUses(w1, q.value, u, input, net, y, t); }
  }

  /** The transaction of the call itself comes into being. */
  lemma AuxBegins(w: World, l: Addr, y: User, t: Addr)
    requires Inv(w, None) && l in w.links && t in w.trans && Uses(w, y, t)
    ensures var tr := FreshTrans(l, false, [], true, Some(Handle([], [], false)));
            var w0 := Tick(w).(trans := w.trans[w.next := tr], next := w.next + 1);
            Inv(w0, Some(w.next)) && Uses(w0, y, t) && t != w.next && l in w0.links &&
            Fits(w0, l, false, w.next, Some(w.next))
  {
    hide Inv;
    FreshAddress(w, None);
    TickKeeps(w, None);
    AuxKeeps(Tick(w), l, w.next, FreshTrans(l, false, [], true, Some(Handle([], [], false))));
  }

  lemma AutoRunUses(w: World, q: Addr, u: Addr, input: Input, net: Net, y: User, t: Addr)
    requires Inv(w, Some(u)) && u in w.trans && Executable(w, q, input) && w.queries[q].stmt.Some? &&
             !w.queries[q].isOpen
    requires u != t && Uses(w, y, t) && Before(y, q)
    ensures var (reply, w2) := Exec(w, q, input, net);
            Uses(DetachAndFree(EndAndDrop(FreeQuery(w2, q, net), u, true, reply.Done?, net), u), y, t)
  {
    hide Inv, Exec, FreeQuery, DetachAndFree, EndAndDrop, Uses;
    WholeExecKeeps(w, q, input, net, Some(u));
    ExecUses(w, q, input, net, y, t);
    var (reply, w2) := Exec(w, q, input, net);
    FreeQueryKeeps(w2, q, net, Some(u));
    FreeUses(w2, q, net, Some(u), y, t);
    AuxEndUses(FreeQuery(w2, q, net), u, reply.Done?, net, y, t);
  }
}
