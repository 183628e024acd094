/** Concrete runs from the empty state, one for each way in which a call can go wrong: what the promises of
    Careful, FetchedFirst, KeepsBlock and Mindful rule out does happen without them. */
module ConcreteRuns {
  import opened State
  import opened Transactions
  import opened Queries
  import opened Steps
  import LegacyTrans
  import opened Invariant
  import opened ExecKeeps
  import opened Outcomes
  import opened Promises
  import opened Effects
  import opened QueryCall
  import opened StepsKeep
  import opened Durability
  import opened RetentionHolds
  import opened Retention

  const RULES: Rules := Rules(false, false, {})

  // ------------------------------------------------------------ runs, call by call

  lemma {:induction false} RunSplit(w: World, a: seq<Op>, b: seq<Op>, net: Net)
    ensures Run(w, a + b, net) == Run(Run(w, a, net), b, net)
    decreases |a|
  {
    hide Step;
    if a == [] { assert a + b == b; }
    else {
      assert (a + b)[0] == a[0] && (a + b)[1..] == a[1..] + b;
      RunSplit(Step(w, a[0], net), a[1..], b, net);
    }
  }

  lemma RunOne(w: World, a: Op, net: Net)
    ensures Run(w, [a], net) == Step(w, a, net)
  {
    hide Step;
    assert [a][1..] == [];
    assert Run(Step(w, a, net), [], net) == Step(w, a, net);
  }

  lemma RunTwo(w: World, a: Op, b: Op, net: Net)
    ensures Run(w, [a, b], net) == Step(Step(w, a, net), b, net)
  {
    hide Step;
    assert [a, b][1..] == [b];
    RunOne(Step(w, a, net), b, net);
  }

  lemma RunThree(w: World, a: Op, b: Op, c: Op, net: Net)
    ensures Run(w, [a, b, c], net) == Step(Step(Step(w, a, net), b, net), c, net)
  {
    hide Step;
    assert [a, b, c][1..] == [b, c];
    RunTwo(Step(w, a, net), b, c, net);
  }

  lemma ExecStep(w: World, q: Addr, input: Input, net: Net)
    requires q in w.queries
    ensures Step(w, Execute(q, input), net) == Exec(w, q, input, net).1
  {
    hide Exec;
  }

  // ------------------------------------------------------------ a transaction with one statement

  /** A link at 0 and on it, at 1, a started transaction: an explicit one or the default one. */
  function Begun(explicit: bool): Trans {
    Trans(Some(0), !explicit, 0, false, [], true, Some(Handle([], [], false)), [], [])
  }

  function OneTrans(tr: Trans, rules: Rules := RULES): World {
    World(map[0 := Link(false, [Some(1)])], map[1 := tr], map[], map[], {}, [], 2, 1, false, false, rules)
  }

  function Stmt(explicit: bool, kind: Kind, form: Form): Query {
    Query(0, Some(1), Some(1), explicit, kind, form.columns, form.columns, form.inputs, form.inputs > 0,
          false, false, false, Some(3), true, None, [])
  }

  /** The same with a statement prepared at 2, its handle at 3. */
  function OneStmt(tr: Trans, qq: Query, rules: Rules := RULES): World {
    OneTrans(tr.(queries := [2]), rules).(queries := map[2 := qq], stmts := {3}, next := 4, tick := 3)
  }

  function Opening(explicit: bool, kind: Kind, form: Form): seq<Op> {
    [Connect(false), if explicit then StartTrans(0, []) else TouchDefault(0, []),
     PrepareStmt(if explicit then OnTrans(1) else OnLink(0), kind, form, [])]
  }

  /** The server agrees to the first calls. */
  ghost predicate Agrees(net: Net, n: nat) { forall k: nat :: k < n ==> net(k) }

  lemma Opened(explicit: bool, net: Net, rules: Rules)
    requires Agrees(net, 1)
    ensures var w1 := Step(Empty(rules), Connect(false), net);
            Step(w1, if explicit then StartTrans(0, []) else TouchDefault(0, []), net) ==
                OneTrans(Begun(explicit), rules)
  {
    var w0 := Empty(rules);
    var w1 := Step(w0, Connect(false), net);
    assert w1 == w0.(links := map[0 := Link(false, [])], next := 1);
    var none: seq<Option<Addr>> := [];
    assert none + [Some(1)] == [Some(1)];
    assert net(0);
    if !explicit {
      var tr := Begun(false).(handle := None);
      var w2 := OneTrans(tr, rules).(tick := 0);
      assert NewTrans(w1, 0, tr) == w2;
      assert DefaultSlot(w1, 0) == (1, w2);
      assert w2.trans[1 := Begun(false)] == OneTrans(Begun(false), rules).trans;
      assert StartDefault(w2, 1, [], net) == (Some(1), OneTrans(Begun(false), rules));
    }
  }

  /** The statement struct before and after it has got its handle. */
  function Blank(explicit: bool, kind: Kind): Query { Stmt(explicit, kind, Form(0, 0)).(stmt := None) }

  lemma StmtBorn(explicit: bool, kind: Kind, rules: Rules)
    ensures NewQuery(OneTrans(Begun(explicit), rules), 1, FreshQuery(0, explicit, kind))
              == OneStmt(Begun(explicit), Blank(explicit, kind), rules).(stmts := {}, next := 3, tick := 1)
  {
    var none: seq<Addr> := [];
    assert [2] + none == [2];
    var w := OneTrans(Begun(explicit), rules);
    assert w.trans[1 := w.trans[1].(queries := [2])] == map[1 := Begun(explicit).(queries := [2])];
    assert w.queries[2 := Blank(explicit, kind)] == map[2 := Blank(explicit, kind)];
  }

  lemma StmtHeld(explicit: bool, kind: Kind, rules: Rules)
    ensures AttachStmt(OneStmt(Begun(explicit), Blank(explicit, kind), rules).(stmts := {}, next := 3, tick := 2), 2)
              == OneStmt(Begun(explicit), Stmt(explicit, kind, Form(0, 0)), rules).(tick := 2)
  {
    var w := OneStmt(Begun(explicit), Blank(explicit, kind), rules).(stmts := {}, next := 3, tick := 2);
    var held := Stmt(explicit, kind, Form(0, 0));
    assert {} + {3} == {3};
    assert w.queries[2 := held] == map[2 := held];
  }

  lemma StmtDescribed(explicit: bool, kind: Kind, form: Form, net: Net, rules: Rules)
    requires Agrees(net, 3) && form.columns <= MAX_COLUMNS
    ensures PrepareOn(OneStmt(Begun(explicit), Blank(explicit, kind), rules).(stmts := {}, next := 3, tick := 1), 2, 1,
                      form, net)
              == (Some(2), OneStmt(Begun(explicit), Stmt(explicit, kind, form), rules))
  {
    hide AttachStmt;
    assert net(1) && net(2);
    var held := Stmt(explicit, kind, Form(0, 0));
    StmtHeld(explicit, kind, rules);
    assert map[2 := held][2 := Stmt(explicit, kind, form)] == map[2 := Stmt(explicit, kind, form)];
  }

  lemma Prepared(explicit: bool, kind: Kind, form: Form, net: Net, rules: Rules)
    requires Agrees(net, 3) && form.columns <= MAX_COLUMNS
    ensures Step(OneTrans(Begun(explicit), rules), Opening(explicit, kind, form)[2], net) ==
              OneStmt(Begun(explicit), Stmt(explicit, kind, form), rules)
  {
    hide NewQuery, PrepareOn, Agrees;
    StmtBorn(explicit, kind, rules);
    StmtDescribed(explicit, kind, form, net, rules);
    var w := OneTrans(Begun(explicit), rules);
    if !explicit { assert DefTrans(w, 0, [], net) == (Some(1), w); }
  }

  lemma Starts(explicit: bool, kind: Kind, form: Form, net: Net, rules: Rules := RULES)
    requires Agrees(net, 3) && form.columns <= MAX_COLUMNS
    ensures Run(Empty(rules), Opening(explicit, kind, form), net) ==
              OneStmt(Begun(explicit), Stmt(explicit, kind, form), rules)
  {
    hide Step, OneTrans, OneStmt, Agrees;
    assert Agrees(net, 1) by { Fewer(net); }
    Opened(explicit, net, rules);
    Prepared(explicit, kind, form, net, rules);
    var ops := Opening(explicit, kind, form);
    RunThree(Empty(rules), ops[0], ops[1], ops[2], net);
    assert ops == [ops[0], ops[1], ops[2]];
  }

  lemma Fewer(net: Net)
    requires Agrees(net, 3)
    ensures Agrees(net, 1)
  {}

  // ------------------------------------------------------------ the link closed too early

  /** The statement once its link has been closed: the transaction is rolled back and cut off. */
  function Stranded(qq: Query): World {
    var tr := Begun(true).(link := None, handle := None);
    OneStmt(tr, qq).(links := map[], tick := 5)
  }

  /** Closing the link of one explicit transaction: a ping and a rollback. */
  ghost predicate OnlyOn(w: World) {
    && w.links == map[0 := Link(false, [Some(1)])] && 1 in w.trans
    && !w.trans[1].isDefault && w.trans[1].handle.Some? && w.trans[1].link == Some(0)
  }

  lemma NodeCloses(w: World)
    requires OnlyOn(w)
    ensures CloseNode(w, 0, true, YES) ==
              Put(w, 1, w.trans[1].(handle := None, link := None), w.durable,
                  w.tick + 1).(links := map[0 := Link(false, [])])
  {
    hide EndAndDrop, Put;
    DropPut(w, 1, true, false, YES);
    assert w.durable + [] == w.durable;
    var tr := w.trans[1];
    PutTwice(w, 1, tr.(handle := None), tr.(handle := None, link := None), w.durable, w.durable, w.tick + 1,
             w.tick + 1);
    NodePopped(Put(w, 1, tr.(handle := None), w.durable, w.tick + 1), tr.(handle := None, link := None));
  }

  lemma NodePopped(w: World, tr: Trans)
    requires w.links == map[0 := Link(false, [Some(1)])]
    ensures SetT(PopNode(w, 0), 1, tr) == Put(w, 1, tr, w.durable, w.tick).(links := map[0 := Link(false, [])])
  {
    assert w.links[0].trs[1..] == [];
    assert w.links[0 := Link(false, [])] == map[0 := Link(false, [])];
  }

  lemma LinkCloses(w: World)
    requires OnlyOn(w)
    ensures Step(w, Close(0), YES) == w.(links := map[],
        trans := w.trans[1 := w.trans[1].(handle := None, link := None)], tick := w.tick + 2)
  {
    hide CloseNodes, CloseNode;
    NodeCloses(Tick(w));
    OneNode(Tick(w));
    assert map[0 := Link(false, [])] - {0} == map[];
  }

  lemma OneNode(w: World)
    ensures CloseNodes(w, 0, 1, true, YES) == CloseNode(w, 0, true, YES)
  {
    hide CloseNode;
    assert CloseNodes(CloseNode(w, 0, true, YES), 0, 0, true, YES) == CloseNode(w, 0, true, YES);
  }

  lemma Closes(qq: Query)
    ensures Step(OneStmt(Begun(true), qq), Close(0), YES) == Stranded(qq)
  {
    hide Step;
    var w := OneStmt(Begun(true), qq);
    LinkCloses(w);
    assert w.trans[1 := w.trans[1].(handle := None, link := None)] == Stranded(qq).trans;
  }

  /** fbird_prepare("SET TRANSACTION"), fbird_close, fbird_execute: the freed link is read. */
  lemma SetTransactionAfterClose()
    ensures Run(Empty(RULES), Opening(true, SetTrans, Form(0, 0)) +
            [Close(0), Execute(2, Input(0, false, true, [], NOTHING))], YES).fault
  {
    AfterClose(SetTrans, Form(0, 0), Input(0, false, true, [], NOTHING));
  }

  /** An INSERT with a BLOB parameter executed with a string after fbird_close: the freed link is read. */
  lemma BlobBoundAfterClose()
    ensures Run(Empty(RULES), Opening(true, Dml, Form(0, 1)) +
            [Close(0), Execute(2, Input(1, true, true, [], NOTHING))], YES).fault
  {
    AfterClose(Dml, Form(0, 1), Input(1, true, true, [], NOTHING));
  }

  lemma AfterClose(kind: Kind, form: Form, input: Input)
    requires form.columns == 0 && (kind.SetTrans? || (kind.Dml? && form.inputs > 0 && input.byValue)) &&
             input.args >= form.inputs
    ensures Run(Empty(RULES), Opening(true, kind, form) + [Close(0), Execute(2, input)], YES).fault
  {
    hide Step, Run, OneStmt, Stranded;
    Starts(true, kind, form, YES);
    RunSplit(Empty(RULES), Opening(true, kind, form), [Close(0), Execute(2, input)], YES);
    var w := OneStmt(Begun(true), Stmt(true, kind, form));
    RunTwo(w, Close(0), Execute(2, input), YES);
    Closes(Stmt(true, kind, form));
    StrandedFaults(kind, form, input);
  }

  lemma StrandedFaults(kind: Kind, form: Form, input: Input)
    requires (kind.SetTrans? || (kind.Dml? && form.inputs > 0 && input.byValue)) && input.args >= form.inputs
    ensures Step(Stranded(Stmt(true, kind, form)), Execute(2, input), YES).fault
  {
    var w := Stranded(Stmt(true, kind, form));
    assert CloseForReexec(w, 2, YES) == w;
    hide CloseForReexec;
  }

  /** DDL prepared on one link and a transaction of another, and executed when its link was closed: the DDL gate
      reads the freed link, although the transaction is live. */
  lemma ForeignDdlAfterClose(input: Input)
    ensures Run(Empty(RULES), [Connect(false), StartTrans(0, []), Connect(false)]
                              + [PrepareStmt(OnBoth(2, 1), Ddl, Form(0, 0), []), Close(2), Execute(3, input)],
                                  YES).fault
  {
    hide Step, Run, OneTrans;
    var (a, b) := ([Connect(false), StartTrans(0, []), Connect(false)],
                   [PrepareStmt(OnBoth(2, 1), Ddl, Form(0, 0), []), Close(2), Execute(3, input)]);
    RunSplit(Empty(RULES), a, b, YES);
    RunThree(Empty(RULES), a[0], a[1], a[2], YES);
    Opened(true, YES, RULES);
    SecondLink();
    RunThree(TwoLinks(), b[0], b[1], b[2], YES);
    ForeignPrepared();
    ForeignClosed(Step(TwoLinks(), b[0], YES));
    ForeignFaults(Step(Step(TwoLinks(), b[0], YES), b[1], YES), input);
  }

  function TwoLinks(): World {
    OneTrans(Begun(true)).(links := OneTrans(Begun(true)).links[2 := Link(false, [])], next := 3)
  }

  lemma SecondLink()
    ensures Step(OneTrans(Begun(true)), Connect(false), YES) == TwoLinks() && Inv(TwoLinks(), None)
  {
    hide Inv, Step;
    EmptyInv(RULES);
    Opened(true, YES, RULES);
    StepKeeps(Empty(RULES), Connect(false), YES);
    StepKeeps(Step(Empty(RULES), Connect(false), YES), StartTrans(0, []), YES);
    StepKeeps(OneTrans(Begun(true)), Connect(false), YES);
    LinkMade();
  }

  lemma LinkMade()
    ensures Step(OneTrans(Begun(true)), Connect(false), YES) == TwoLinks()
  {}

  /** The statement at 3, on link 2 and transaction 1. */
  ghost predicate Foreign(w: World) {
    && Inv(w, None) && 3 in w.queries && w.queries[3].link == 2 && AsksLink(w, 3) && w.queries[3].inputs == 0
  }

  lemma ForeignPrepared()
    ensures var w := Step(TwoLinks(), PrepareStmt(OnBoth(2, 1), Ddl, Form(0, 0), []), YES);
            Foreign(w) && 2 in w.links && w.links[2].trs == []
  {
    hide Inv, Prepare;
    var w := TwoLinks();
    SecondLink();
    PrepareKeeps(w, 2, 1, true, Ddl, Form(0, 0), YES, None);
    PrepareSucceeds(w, 2, 1, Ddl, Form(0, 0));
    PreparedDrawn(w, 2, 1, true, Ddl, Form(0, 0), YES);
  }

  lemma ForeignClosed(w: World)
    requires Foreign(w) && 2 in w.links && w.links[2].trs == []
    ensures var r := Step(w, Close(2), YES); Foreign(r) && 2 !in r.links
  {
    hide Inv;
    StepKeeps(w, Close(2), YES);
    assert CloseNodes(Tick(w), 2, 0, true, YES) == Tick(w);
  }

  lemma ForeignFaults(w: World, input: Input)
    requires Foreign(w) && 2 !in w.links
    ensures Step(w, Execute(3, input), YES).fault
  {
    hide Inv, Exec;
    CarelessExecution(w, 3, input, YES);
  }

  // ------------------------------------------------------------ a result row in the buffer

  /** The result of EXECUTE PROCEDURE at 5. */
  function Row(explicit: bool, inputs: nat): Query {
    Query(0, Some(1), Some(1), explicit, Procedure, 1, 1, inputs, false, true, true, false, None, false, None, [])
  }

  /** The state after the execution: 4 is the work done. */
  function OneRow(explicit: bool, inputs: nat): World {
    var tr := Begun(explicit).(count := 1, queries := [5, 2], handle := Some(Handle([], [4], false)));
    OneStmt(tr, Stmt(explicit, Procedure, Form(1, inputs))).
      (trans := map[1 := tr], queries := map[2 := Stmt(explicit, Procedure, Form(1, inputs)),
                                             5 := Row(explicit, inputs)], next := 6, tick := 4)
  }

  function Call(inputs: nat): Op { Execute(2, Input(inputs, false, true, [], NOTHING)) }

  /** The statement has run and its work, 4, is pending. */
  function Ran(explicit: bool, inputs: nat): World {
    var tr := Begun(explicit).(queries := [2], handle := Some(Handle([], [4], false)));
    OneRow(explicit, inputs).(trans := map[1 := tr],
                              queries := map[2 := Stmt(explicit, Procedure, Form(1, inputs))], next := 5)
  }

  lemma StmtRuns(explicit: bool, inputs: nat, net: Net)
    requires net(3)
    ensures RunStatement(OneStmt(Begun(explicit), Stmt(explicit, Procedure, Form(1, inputs))), 2, NOTHING, net) ==
              (true, Ran(explicit, inputs))
  {
    var w := OneStmt(Begun(explicit), Stmt(explicit, Procedure, Form(1, inputs)));
    var none: seq<Work> := [];
    assert none + [4] == [4];
    assert w.trans[1 := Ran(explicit, inputs).trans[1]] == Ran(explicit, inputs).trans;
    assert AddWork(Tick(w), 1, Procedure, NOTHING) == Ran(explicit, inputs);
    hide AddWork;
  }

  lemma RowMade(explicit: bool, inputs: nat)
    ensures MakeResult(Ran(explicit, inputs), 2) == (Result(5), OneRow(explicit, inputs))
  {
    var w := Ran(explicit, inputs);
    var row := Row(explicit, inputs).(isOpen := false);
    assert [5] + [2] == [5, 2];
    var w1 := OneRow(explicit, inputs).(trans := map[1 := w.trans[1].(queries := [5, 2])],
                                        queries := OneRow(explicit, inputs).queries[5 := row]);
    assert w.queries[5 := row] == w1.queries && w.trans[1 := w1.trans[1]] == w1.trans;
    assert NewQuery(w, 1, ResultOf(w.queries[2], 2)) == w1;
    hide NewQuery;
    RowOpened(explicit, inputs, w1);
    hide CursorOpened;
  }

  lemma RowOpened(explicit: bool, inputs: nat, w: World)
    requires var row := Row(explicit, inputs).(isOpen := false);
             w == OneRow(explicit, inputs).(trans := map[1 := Ran(explicit, inputs).trans[1].(queries := [5, 2])],
                                            queries := OneRow(explicit, inputs).queries[5 := row])
    ensures CursorOpened(w, 5) == OneRow(explicit, inputs)
  {
    var r := OneRow(explicit, inputs);
    assert w.trans[1 := r.trans[1]] == r.trans && w.queries[5 := r.queries[5]] == r.queries;
  }

  lemma Executes(explicit: bool, inputs: nat, net: Net)
    requires net(3)
    ensures Step(OneStmt(Begun(explicit), Stmt(explicit, Procedure, Form(1, inputs))), Call(inputs), net) ==
              OneRow(explicit, inputs)
  {
    hide Step, RunStatement, MakeResult, OneRow, Ran;
    ExecStep(OneStmt(Begun(explicit), Stmt(explicit, Procedure, Form(1, inputs))), 2,
             Input(inputs, false, true, [], NOTHING), net);
    var w := OneStmt(Begun(explicit), Stmt(explicit, Procedure, Form(1, inputs)));
    StmtRuns(explicit, inputs, net);
    RowMade(explicit, inputs);
    RanIs(explicit, inputs);
    assert Finish(Ran(explicit, inputs), 2, net) == (Result(5), OneRow(explicit, inputs));
    hide Finish;
    assert ExecPlain(w, 2, Input(inputs, false, true, [], NOTHING), net) == (Result(5), OneRow(explicit, inputs));
  }

  lemma RanIs(explicit: bool, inputs: nat)
    ensures Ran(explicit, inputs).queries == map[2 := Stmt(explicit, Procedure, Form(1, inputs))]
  {}

  lemma Rows(explicit: bool, inputs: nat, net: Net, rest: seq<Op>)
    requires Agrees(net, 4)
    ensures Run(Empty(RULES), Opening(explicit, Procedure, Form(1, inputs)) + ([Call(inputs)] + rest), net) ==
              Run(OneRow(explicit, inputs), rest, net)
  {
    hide Step, Run, OneStmt, OneRow;
    var opening := Opening(explicit, Procedure, Form(1, inputs));
    Starts(explicit, Procedure, Form(1, inputs), net);
    RunSplit(Empty(RULES), opening, [Call(inputs)] + rest, net);
    RunSplit(Run(Empty(RULES), opening, net), [Call(inputs)], rest, net);
    RunOne(Run(Empty(RULES), opening, net), Call(inputs), net);
    Executes(explicit, inputs, net);
  }

  function RowStranded(): World {
    var tr := OneRow(true, 0).trans[1].(link := None, handle := None);
    OneRow(true, 0).(trans := map[1 := tr], links := map[], tick := 6)
  }

  lemma RowCloses()
    ensures Step(OneRow(true, 0), Close(0), YES) == RowStranded()
  {
    hide Step;
    var w := OneRow(true, 0);
    LinkCloses(w);
    assert w.trans[1 := w.trans[1].(handle := None, link := None)] == RowStranded().trans;
  }

  lemma RowOfStranded(column: Column)
    ensures Step(RowStranded(), FetchRow(5, [column]), YES).fault
  {
    assert FetchCursor(RowStranded(), 5, YES).0;
    assert 5 in FetchCursor(RowStranded(), 5, YES).1.queries;
    assert FetchCursor(RowStranded(), 5, YES).1.links == map[];
    hide FetchCursor;
  }

  /** EXECUTE PROCEDURE, fbird_close, and then its row fetched with the contents of a BLOB or an array: the
      freed link is read. */
  lemma ContentsAfterClose(column: Column)
    ensures Run(Empty(RULES), Opening(true, Procedure, Form(1, 0)) + ([Call(0)] + [Close(0), FetchRow(5, [column])]),
                YES).fault
  {
    hide Run, Step, OneRow, RowStranded;
    Rows(true, 0, YES, [Close(0), FetchRow(5, [column])]);
    RunTwo(OneRow(true, 0), Close(0), FetchRow(5, [column]), YES);
    RowCloses();
    RowOfStranded(column);
  }

  /** The row after its transaction, but not its link, has been freed. */
  function RowDetached(): World {
    var Q := OneRow(true, 0).queries;
    OneRow(true, 0).(trans := map[], links := map[0 := Link(false, [])], tick := 6,
                     queries := map[2 := Q[2].(trans := None, reg := None), 5 := Q[5].(trans := None, reg := None)])
  }

  /** ... after the rollback, and off its link. */
  function RowUnlinked(): World {
    var tr := OneRow(true, 0).trans[1].(handle := None, link := None);
    OneRow(true, 0).(trans := map[1 := tr], links := map[0 := Link(false, [])], tick := 6)
  }

  lemma RowUnlinks()
    ensures var w := OneRow(true, 0).(tick := 5); UnlinkTrans(EndAndDrop(w, 1, true, false, YES), 1) == RowUnlinked()
  {
    var w := OneRow(true, 0).(tick := 5);
    var w1 := EndAndDrop(w, 1, true, false, YES);
    assert w1 == w.(trans := map[1 := w.trans[1].(handle := None)], tick := 6);
    hide EndAndDrop;
    assert Without([Some(1)], Some(1)) == [];
    assert w1.trans[1 := RowUnlinked().trans[1]] == RowUnlinked().trans;
    assert w1.links[0 := Link(false, [])] == RowUnlinked().links;
  }

  lemma RowLoses()
    ensures DetachAndFree(RowUnlinked(), 1) == RowDetached()
  {
    var w := RowUnlinked();
    assert w.trans - {1} == map[];
    assert DetachAndFree(w, 1).queries == RowDetached().queries;
    assert DetachAndFree(w, 1).batches == map[];
  }

  lemma RowDetaches()
    ensures Step(OneRow(true, 0), DestroyTrans(1), YES) == RowDetached()
  {
    hide EndAndDrop, UnlinkTrans, DetachAndFree, RowUnlinked, RowDetached;
    RowUnlinks();
    RowLoses();
  }

  lemma RowOfDetached()
    ensures Step(RowDetached(), FetchRow(5, [ArrayColumn]), YES).fault
  {
    var w1 := FetchCursor(RowDetached(), 5, YES).1;
    assert FetchCursor(RowDetached(), 5, YES).0 && 5 in w1.queries && w1.queries[5].trans.None?;
    hide FetchCursor;
  }

  /** The row of a procedure fetched with array contents after its transaction was destroyed: the array reader
      follows the NULL transaction, although the link is open. */
  lemma ArrayWithoutTransaction()
    ensures Run(Empty(RULES), Opening(true, Procedure, Form(1, 0)) +
            ([Call(0)] + [DestroyTrans(1), FetchRow(5, [ArrayColumn])]), YES).fault
  {
    hide Run, Step, OneRow, RowDetached;
    Rows(true, 0, YES, [DestroyTrans(1), FetchRow(5, [ArrayColumn])]);
    RunTwo(OneRow(true, 0), DestroyTrans(1), FetchRow(5, [ArrayColumn]), YES);
    RowDetaches();
    RowOfDetached();
  }

  /** The result of a procedure with a parameter executed in place of its statement: it has no bind buffer. */
  lemma ResultHasNoBuffer()
    ensures Run(Empty(RULES), Opening(true, Procedure, Form(1, 1)) +
            ([Call(1)] + [Execute(5, Input(1, false, true, [], NOTHING))]), YES).fault
  {
    hide Run, Step, OneRow;
    var bad := Execute(5, Input(1, false, true, [], NOTHING));
    Rows(true, 1, YES, [bad]);
    RunOne(OneRow(true, 1), bad, YES);
    NoBuffer();
  }

  lemma NoBuffer()
    ensures Step(OneRow(true, 1), Execute(5, Input(1, false, true, [], NOTHING)), YES).fault
  {
    hide Step;
    var w := OneRow(true, 1);
    ExecStep(w, 5, Input(1, false, true, [], NOTHING), YES);
    assert CloseForReexec(w, 5, YES) == w;
    assert Bind(w, 5, Input(1, false, true, [], NOTHING)) == (false, Fault(w));
    hide Shut, CloseForReexec, Bind;
    ShutFault(Fault(w), 5, YES);
  }

  // ------------------------------------------------------------ counters left too high

  /** A row freed before it is fetched. */
  lemma UnfetchedRowLeaks()
    ensures var r := Run(Empty(RULES), Opening(true, Procedure, Form(1, 0)) + ([Call(0)] + [Free(5)]), YES);
            !Exact(r) && 1 in r.trans && r.trans[1].count == 1 && OpenOn(r.queries, 1) == {}
  {
    hide Run, Step, OneRow, Exact;
    Rows(true, 0, YES, [Free(5)]);
    RunOne(OneRow(true, 0), Free(5), YES);
    RowFreed();
  }

  lemma RowFreed()
    ensures var r := Step(OneRow(true, 0), Free(5), YES);
            !Exact(r) && 1 in r.trans && r.trans[1].count == 1 && OpenOn(r.queries, 1) == {}
  {
    var w := OneRow(true, 0);
    LeakIs(w, 5, 1, YES);
    hide RemoveQuery, DestroyLeaf;
    assert FreeAll(w, 5, [], w.next, YES) == w;
    assert Step(w, Free(5), YES) == RemoveQuery(w, 5);
    assert OpenOn(Pruned(w.queries, 5), 1) == {};
  }

  /** The server agrees to the first five calls only. */
  const FIVE: Net := (n: nat) => n < 5

  function RowEnded(): World {
    OneRow(false, 0).(trans := map[1 := OneRow(false, 0).trans[1].(handle := None)], tick := 5)
  }

  lemma RowEnds()
    ensures Step(OneRow(false, 0), End(1, Rollback), FIVE) == RowEnded()
  {
    var w := OneRow(false, 0);
    var w1 := TryRollback(w, 1, FIVE).1;
    assert w1 == w.(trans := map[1 := w.trans[1].(handle := Some(Handle([], [], false)))], tick := 5);
    hide TryRollback;
    assert w1.trans[1 := RowEnded().trans[1]] == RowEnded().trans;
  }

  /** The row has left its registry when the server refuses. */
  lemma RowUnenrolled()
    ensures var w1 := Unenroll(RowEnded(), 5);
            && w1.links == RowEnded().links && w1.tick == 5 && !w1.wrapped && OpenOn(w1.queries, 1) == {}
            && w1.trans.Keys == {1} && Same(w1.trans[1], RowEnded().trans[1].(queries := Without([5, 2], 5)))
  {}

  lemma StartRefused(w: World)
    requires w.links == RowEnded().links && w.trans.Keys == {1} && w.tick == 5
    requires Same(w.trans[1], RowEnded().trans[1].(queries := w.trans[1].queries))
    ensures DefTrans(w, 0, [], FIVE) == (None, Tick(w))
  {}

  lemma RowRefused()
    ensures var r := Step(RowEnded(), Execute(5, Input(0, false, true, [], NOTHING)), FIVE);
            !Exact(r) && 1 in r.trans && r.trans[1].count == 1 && OpenOn(r.queries, 1) == {}
  {
    hide Step, Unenroll, DefTrans, Shut;
    var (w, input) := (RowEnded(), Input(0, false, true, [], NOTHING));
    ExecStep(w, 5, input, FIVE);
    RowUnenrolled();
    StartRefused(Unenroll(w, 5));
    assert EnsureDefault(w, 5, [], FIVE) == (false, Tick(Unenroll(w, 5)));
    hide EnsureDefault;
    assert Exec(w, 5, input, FIVE).1 == Tick(Unenroll(w, 5));
  }

  /** A row of the default transaction that is executed again after that transaction was rolled back, while the
      server refuses to start it again. */
  lemma RefusedRowLeaks()
    ensures var r := Run(Empty(RULES), Opening(false, Procedure, Form(1, 0)) +
            ([Call(0)] + [End(1, Rollback), Execute(5, Input(0, false, true, [], NOTHING))]), FIVE);
            !Exact(r) && 1 in r.trans && r.trans[1].count == 1 && OpenOn(r.queries, 1) == {}
  {
    hide Run, Step, OneRow, RowEnded, Exact;
    var bad := Execute(5, Input(0, false, true, [], NOTHING));
    Rows(false, 0, FIVE, [End(1, Rollback), bad]);
    RunTwo(OneRow(false, 0), End(1, Rollback), bad, FIVE);
    RowEnds();
    RowRefused();
  }

  // ------------------------------------------------------------ retention without anybody to release it

  function Insert(inputs: nat): World { OneStmt(Begun(true), Stmt(true, Dml, Form(0, inputs))) }

  function Batched(): World {
    Insert(1).(trans := map[1 := Insert(1).trans[1].(batches := [4])],
               batches := map[4 := Batch(Some(1), Some(1), 2, true)], next := 5, tick := 4)
  }

  lemma BatchMade()
    ensures Step(Insert(1), NewBatch(2, None), YES) == Batched()
  {
    var none: seq<Addr> := [];
    assert [4] + none == [4];
    assert Insert(1).trans[1 := Batched().trans[1]] == Batched().trans;
    assert Insert(1).batches[4 := Batched().batches[4]] == Batched().batches;
  }

  /** MarkedFrom by a commit_ret. */
  function MarkedFrom(w: World): World
    requires w == Batched() || w == Insert(0)
  {
    w.(trans := map[1 := w.trans[1].(retain := true, handle := Some(Handle([], [], true)))], tick := w.tick + 1)
  }

  /** A retaining commit with something enrolled. */
  lemma MarkIs(w: World, net: Net)
    requires 1 in w.trans && !w.trans[1].isDefault && w.trans[1].handle.Some? && !NothingToRetain(w.trans[1]) &&
             net(w.tick)
    ensures var (tr, h) := (w.trans[1], w.trans[1].handle.value);
            Step(w, End(1, CommitRet), net) == Put(w, 1, tr.(handle := Some(Handle(h.tpb, [], true)), retain := true),
                                                   w.durable + h.pending, w.tick + 1)
  {
    hide EndSwitch, Put, NothingToRetain, SameLayout, OnlyTrans;
    HardPathTaken(w, 1, net);
  }

  lemma MarkedBy(w: World, net: Net)
    requires (w == Batched() || w == Insert(0)) && net(w.tick)
    ensures Step(w, End(1, CommitRet), net) == MarkedFrom(w)
  {
    hide Step;
    MarkIs(w, net);
    var none: seq<Work> := [];
    assert none + none == none;
    assert w.trans[1 := MarkedFrom(w).trans[1]] == MarkedFrom(w).trans;
  }

  /** Freeing a closed statement that stands alone. */
  lemma StmtFreed(w: World, net: Net)
    requires 2 in w.queries && w.queries[2].children == [] && !w.queries[2].isOpen && w.queries[2].trans == Some(1)
    ensures Step(w, Free(2), net) == ReleaseIfIdle(RemoveQuery(DropStmt(w, 2), 2), 1, net)
  {
    hide DropStmt, RemoveQuery, ReleaseIfIdle, DestroyLeaf;
    assert FreeAll(w, 2, [], w.next, net) == w;
    ClosedDrops(w, 2, 0);
    NotHad(w, 2, net);
  }

  /** The only statement goes, with its handle. */
  lemma StmtGone(w: World)
    requires w.queries.Keys == {2} && w.stmts == {3} && 1 in w.trans && w.trans[1].queries == [2]
    requires w.queries[2].reg == Some(1) && w.queries[2].parent.None? && w.queries[2].stmt == Some(3) &&
             w.queries[2].owns
    ensures RemoveQuery(DropStmt(w, 2), 2) ==
              w.(stmts := {}, queries := map[], trans := w.trans[1 := w.trans[1].(queries := [])])
  {
    var qq := w.queries[2].(stmt := None, owns := false);
    assert {3} - {3} == {};
    assert DropStmt(w, 2) == w.(stmts := {}, queries := w.queries[2 := qq]);
    hide DropStmt;
    assert Without([2], 2) == [];
    assert w.queries[2 := qq] - {2} == map[];
  }

  function Orphaned(): World {
    MarkedFrom(Batched()).(trans := map[1 := MarkedFrom(Batched()).trans[1].(queries := [])], queries := map[],
                           stmts := {})
  }

  lemma InsertFreed()
    ensures Step(MarkedFrom(Batched()), Free(2), YES) == Orphaned()
  {
    hide Step, RemoveQuery, DropStmt;
    var w := MarkedFrom(Batched());
    StmtFreed(w, YES);
    StmtGone(w);
    assert w.trans[1 := Orphaned().trans[1]] == Orphaned().trans;
  }

  lemma LastBatchFreed()
    ensures !Released(Step(Orphaned(), FreeBatch(4, false), YES))
  {
    var w := Orphaned();
    var r := RemoveBatch(w, 4);
    OrphanLeft();
    hide RemoveBatch;
    assert Step(w, FreeBatch(4, false), YES) == r;
  }

  lemma OrphanLeft()
    ensures var r := RemoveBatch(Orphaned(), 4);
            1 in r.trans && !r.wrapped && Retains(r.trans[1]) && !Enrolls(r.trans[1])
  {
    assert Without([4], 4) == [];
  }

  /** A batch made from a statement, a commit_ret, the statement freed and then the batch: the retained locks
      stay, and nothing that could release them is left. */
  lemma BatchOrphansRetention()
    ensures !Released(Run(Empty(RULES), Opening(true, Dml, Form(0, 1)) +
            ([NewBatch(2, None), End(1, CommitRet)] + [Free(2), FreeBatch(4, false)]), YES))
  {
    hide Run, Step, Insert, Batched, MarkedFrom, Orphaned, Released;
    InsertIs(1);
    Starts(true, Dml, Form(0, 1), YES);
    RunSplit(Empty(RULES), Opening(true, Dml, Form(0, 1)),
             [NewBatch(2, None), End(1, CommitRet)] + [Free(2), FreeBatch(4, false)], YES);
    RunSplit(Insert(1), [NewBatch(2, None), End(1, CommitRet)], [Free(2), FreeBatch(4, false)], YES);
    RunTwo(Insert(1), NewBatch(2, None), End(1, CommitRet), YES);
    BatchMade();
    MarkedBy(Batched(), YES);
    RunTwo(MarkedFrom(Batched()), Free(2), FreeBatch(4, false), YES);
    InsertFreed();
    LastBatchFreed();
  }

  lemma InsertIs(inputs: nat)
    ensures Insert(inputs) == OneStmt(Begun(true), Stmt(true, Dml, Form(0, inputs)))
  {}

  /** The INSERT with locks left by a retaining rollback or commit, and after it has been freed. */
  function Locked(retain: bool): World {
    Insert(0).(trans := map[1 := Insert(0).trans[1].(retain := retain, handle := Some(Handle([], [], true)))],
               tick := 4)
  }

  function LockedAlone(retain: bool): World {
    Locked(retain).(trans := map[1 := Locked(retain).trans[1].(queries := [])], queries := map[], stmts := {})
  }

  lemma LockedFreed(retain: bool, net: Net)
    ensures Step(Locked(retain), Free(2), net) == ReleaseIfIdle(LockedAlone(retain), 1, net)
  {
    hide Step, RemoveQuery, DropStmt, ReleaseIfIdle;
    var w := Locked(retain);
    StmtFreed(w, net);
    StmtGone(w);
    assert w.trans[1 := LockedAlone(retain).trans[1]] == LockedAlone(retain).trans;
  }

  /** Transaction 1 holds locks, without the mark and with nothing enrolled. */
  ghost predicate LeftLocked(w: World) {
    1 in w.trans && w.trans[1] == Begun(true).(handle := Some(Handle([], [], true))) && !w.wrapped
  }

  lemma LeftIsLost(w: World)
    requires LeftLocked(w)
    ensures !Released(w)
  {
    assert Retains(w.trans[1]);
  }

  lemma RolledBack()
    ensures Step(Insert(0), End(1, RollbackRet), YES) == Locked(false)
  {
    hide EndSwitch, SameLayout, OnlyTrans;
    SoftRollbackIs(Insert(0), 1, YES);
    assert Insert(0).trans[1 := Locked(false).trans[1]] == Locked(false).trans;
  }

  lemma NotReleased()
    ensures LeftLocked(ReleaseIfIdle(LockedAlone(false), 1, YES))
  {
    hide CommitRestart;
  }

  /** A retaining rollback with a statement prepared, and the statement freed: the release that should follow is
      never due, because the mark is missing. */
  lemma RollbackStrandsLocks()
    ensures var r := Run(Empty(RULES), Opening(true, Dml, Form(0, 0)) + [End(1, RollbackRet), Free(2)], YES);
            LeftLocked(r) && !Released(r)
  {
    hide Run, Step, Insert, Locked, LockedAlone, LeftLocked, Released;
    InsertIs(0);
    Starts(true, Dml, Form(0, 0), YES);
    RunSplit(Empty(RULES), Opening(true, Dml, Form(0, 0)), [End(1, RollbackRet), Free(2)], YES);
    RunTwo(Insert(0), End(1, RollbackRet), Free(2), YES);
    RolledBack();
    LockedFreed(false, YES);
    NotReleased();
    LeftIsLost(Step(Locked(false), Free(2), YES));
  }

  /** The server agrees to the first four calls only. */
  const FOUR: Net := (n: nat) => n < 4

  lemma RefusedRelease()
    ensures LeftLocked(ReleaseIfIdle(LockedAlone(true), 1, FOUR))
  {
    var w := LockedAlone(true);
    CommitRestartIs(SetT(w, 1, w.trans[1].(retain := false)), 1, FOUR);
    hide CommitRestart, SameLayout, OnlyTrans;
  }

  lemma InsertTick()
    ensures Insert(0).tick == 3 && MarkedFrom(Insert(0)) == Locked(true)
  {}

  /** A retaining commit with a statement prepared, and the statement freed while the server refuses: the mark is
      given up, and the locks stay. */
  lemma RefusalStrandsLocks()
    ensures var r := Run(Empty(RULES), Opening(true, Dml, Form(0, 0)) + [End(1, CommitRet), Free(2)], FOUR);
            LeftLocked(r) && !Released(r)
  {
    hide Run, Step, Insert, Locked, LockedAlone, LeftLocked, Released, MarkedFrom;
    InsertIs(0);
    InsertTick();
    Starts(true, Dml, Form(0, 0), FOUR);
    RunSplit(Empty(RULES), Opening(true, Dml, Form(0, 0)), [End(1, CommitRet), Free(2)], FOUR);
    RunTwo(Insert(0), End(1, CommitRet), Free(2), FOUR);
    MarkedBy(Insert(0), FOUR);
    LockedFreed(true, FOUR);
    RefusedRelease();
    LeftIsLost(Step(Locked(true), Free(2), FOUR));
  }

  // ------------------------------------------------------------ a mark without locks

  const AUTO: Rules := Rules(true, false, {})

  /** DDL prepared and the transaction marked. */
  function DdlMarked(): World {
    OneStmt(Begun(true).(retain := true, handle := Some(Handle([], [], true))), Stmt(true, Ddl, Form(0, 0)),
            AUTO).(tick := 4)
  }

  /** After the gate and the DDL: 4 is its work. */
  function DdlDone(): World {
    var tr := DdlMarked().trans[1].(handle := Some(Handle([], [4], false)));
    DdlMarked().(trans := map[1 := tr], next := 5, tick := 7)
  }

  lemma DdlMarks()
    ensures Step(OneStmt(Begun(true), Stmt(true, Ddl, Form(0, 0)), AUTO), End(1, CommitRet), YES) == DdlMarked()
  {
    hide Step;
    var w := OneStmt(Begun(true), Stmt(true, Ddl, Form(0, 0)), AUTO);
    MarkIs(w, YES);
    var none: seq<Work> := [];
    assert none + none == none;
    assert w.trans[1 := DdlMarked().trans[1]] == DdlMarked().trans;
  }

  /** The gate commits and starts again, and leaves the mark. */
  lemma DdlGated()
    ensures DdlGate(DdlMarked(), 2, YES) ==
              (true, DdlMarked().(trans := map[1 := DdlMarked().trans[1].(handle := Some(Handle([], [], false)))],
                                  tick := 6))
  {
    var w := DdlMarked();
    EndIs(w, 1, YES);
    hide TryCommit;
    var none: seq<Work> := [];
    assert none + none == none;
    var ended := w.(trans := map[1 := w.trans[1].(handle := Some(Handle([], [], true)))], tick := 5);
    assert w.trans[1 := ended.trans[1]] == ended.trans;
    assert TryCommit(w, 1, YES) == (true, ended);
    var dropped := ended.(trans := map[1 := w.trans[1].(handle := None)]);
    assert FreeHandle(ended, 1) == dropped by { assert ended.trans[1 := dropped.trans[1]] == dropped.trans; }
    assert dropped.trans[1 := w.trans[1].(handle := Some(Handle([], [], false)))] ==
             map[1 := w.trans[1].(handle := Some(Handle([], [], false)))];
  }

  lemma DdlRan(w: World)
    requires w == DdlMarked().(trans := map[1 := DdlMarked().trans[1].(handle := Some(Handle([], [], false)))],
                               tick := 6)
    ensures RunStatement(w, 2, NOTHING, YES) == (true, DdlDone()) && Finish(DdlDone(), 2, YES) == (Done, DdlDone())
  {
    var none: seq<Work> := [];
    assert none + [4] == [4];
    assert w.trans[1 := DdlDone().trans[1]] == DdlDone().trans;
    assert AddWork(Tick(w), 1, Ddl, NOTHING) == DdlDone();
    hide AddWork;
    assert Shut(DdlDone(), 2, YES) == DdlDone()
           by { assert DdlDone().queries[2 := DdlDone().queries[2]] == DdlDone().queries; }
    hide Shut;
  }

  lemma DdlExecutes()
    ensures Step(DdlMarked(), Call(0), YES) == DdlDone()
  {
    hide Step, DdlGate, RunStatement, Finish;
    var w := DdlMarked();
    ExecStep(w, 2, Input(0, false, true, [], NOTHING), YES);
    DdlGated();
    DdlRan(DdlGate(w, 2, YES).1);
    assert CloseForReexec(w, 2, YES) == w && EnsureDefault(w, 2, [], YES) == (true, w);
  }

  lemma DdlIsStale()
    ensures !RetentionHolds.Marked(DdlDone()) && Pending(DdlDone().trans, 1) == [4] && DdlDone().durable == []
  {
    assert Started(DdlDone().trans[1]);
  }

  lemma DdlFreed()
    ensures Step(DdlDone(), Free(2), YES).durable == [4]
  {
    hide Step, RemoveQuery, DropStmt, ReleaseIfIdle;
    var w := DdlDone();
    StmtFreed(w, YES);
    StmtGone(w);
    var idle := w.(stmts := {}, queries := map[], trans := map[1 := w.trans[1].(queries := [])]);
    assert w.trans[1 := idle.trans[1]] == idle.trans;
    DdlReleased(idle);
  }

  lemma DdlReleased(w: World)
    requires w == DdlDone().(stmts := {}, queries := map[], trans := map[1 := DdlDone().trans[1].(queries := [])])
    ensures ReleaseIfIdle(w, 1, YES).durable == [4]
  {
    CommitRestartIs(SetT(w, 1, w.trans[1].(retain := false)), 1, YES);
    hide CommitRestart, SameLayout, OnlyTrans;
  }

  /** With auto_ddl_commit, DDL executed after a commit_ret releases the locks and keeps the mark, so that freeing
      its statement commits the DDL itself. */
  lemma StaleMarkCommits()
    ensures var before := Opening(true, Ddl, Form(0, 0)) + [End(1, CommitRet), Call(0)];
            var w := Run(Empty(AUTO), before, YES);
            && !RetentionHolds.Marked(w) && Pending(w.trans, 1) == [4] && w.durable == []
            && Run(Empty(AUTO), before + [Free(2)], YES).durable == [4]
  {
    hide Run, Step, DdlMarked, DdlDone, RetentionHolds.Marked, OneStmt;
    var w := OneStmt(Begun(true), Stmt(true, Ddl, Form(0, 0)), AUTO);
    Starts(true, Ddl, Form(0, 0), YES, AUTO);
    RunSplit(Empty(AUTO), Opening(true, Ddl, Form(0, 0)), [End(1, CommitRet), Call(0)], YES);
    RunTwo(w, End(1, CommitRet), Call(0), YES);
    DdlMarks();
    DdlExecutes();
    DdlIsStale();
    RunSplit(Empty(AUTO), Opening(true, Ddl, Form(0, 0)) + [End(1, CommitRet), Call(0)], [Free(2)], YES);
    RunOne(DdlDone(), Free(2), YES);
    DdlFreed();
  }

  // ------------------------------------------------------------ work executed after a commit_ret

  function Late(): World {
    MarkedFrom(Insert(0)).(trans := map[1 := MarkedFrom(Insert(0)).trans[1].(handle := Some(Handle([], [4], true)))],
                           next := 5, tick := 6)
  }

  lemma LateExecuted()
    ensures Step(MarkedFrom(Insert(0)), Call(0), YES) == Late()
  {
    hide Step;
    var w := MarkedFrom(Insert(0));
    ExecStep(w, 2, Input(0, false, true, [], NOTHING), YES);
    var none: seq<Work> := [];
    assert none + [4] == [4];
    var w1 := Late().(tick := 5);
    assert w.trans[1 := w1.trans[1]] == w1.trans;
    assert AddWork(Tick(w), 1, Dml, NOTHING) == w1;
    hide AddWork;
    assert RunStatement(w, 2, NOTHING, YES) == (true, w1);
    hide RunStatement;
    assert Shut(Tick(w1), 2, YES) == Late() by { assert Late().queries[2 := Late().queries[2]] == Late().queries; }
    hide Shut;
    assert Finish(w1, 2, YES) == (Done, Late());
    hide Finish;
    assert CloseForReexec(w, 2, YES) == w;
  }

  /** The state in which the release finds the transaction idle. */
  function LateIdle(): World {
    Late().(stmts := {}, queries := map[], trans := map[1 := Late().trans[1].(queries := [])])
  }

  lemma LateReleased()
    ensures var r := ReleaseIfIdle(LateIdle(), 1, YES);
            && r.durable == [4] && 1 in r.trans && !r.trans[1].retain && r.trans[1].queries == [] &&
               r.trans[1].batches == [] && r.trans[1].count == 0
  {
    var w := LateIdle();
    CommitRestartIs(SetT(w, 1, w.trans[1].(retain := false)), 1, YES);
    hide CommitRestart, SameLayout, OnlyTrans;
  }

  lemma LateFreed()
    ensures Late().durable == [] && Pending(Late().trans, 1) == [4] && !CommitPoint(Late(), Free(2), 1)
    ensures Step(Late(), Free(2), YES).durable == [4]
    ensures ReleasePoint(Late(), Free(2), YES, 1)
  {
    hide Step, RemoveQuery, DropStmt, ReleaseIfIdle;
    var w := Late();
    StmtFreed(w, YES);
    StmtGone(w);
    assert w.trans[1 := LateIdle().trans[1]] == LateIdle().trans;
    LateReleased();
  }

  /** An INSERT executed after a commit_ret is committed when its statement is freed, without a commit point. */
  lemma LateWorkIsCommitted()
    ensures var before := Opening(true, Dml, Form(0, 0)) + [End(1, CommitRet), Call(0)];
            var w := Run(Empty(RULES), before, YES);
            && Pending(w.trans, 1) == [4] && w.durable == [] && !CommitPoint(w, Free(2), 1) &&
               ReleasePoint(w, Free(2), YES, 1)
            && Run(Empty(RULES), before + [Free(2)], YES).durable == [4]
  {
    hide Run, Step, Insert, MarkedFrom, Late, CommitPoint, ReleasePoint;
    InsertIs(0);
    Starts(true, Dml, Form(0, 0), YES);
    RunSplit(Empty(RULES), Opening(true, Dml, Form(0, 0)), [End(1, CommitRet), Call(0)], YES);
    RunTwo(Insert(0), End(1, CommitRet), Call(0), YES);
    MarkedBy(Insert(0), YES);
    LateExecuted();
    RunSplit(Empty(RULES), Opening(true, Dml, Form(0, 0)) + [End(1, CommitRet), Call(0)], [Free(2)], YES);
    RunOne(Late(), Free(2), YES);
    LateFreed();
  }

  // ------------------------------------------------------------ a block that is not kept

  /** FBIRD_READ before the link and FBIRD_WRITE behind it; the builder says 8 for read-only, 9 for read-write. */
  const MODIFIED: seq<LegacyTrans.Arg> :=
      [LegacyTrans.Number(2, true), LegacyTrans.LinkArg(0), LegacyTrans.Number(1, true)]
  const BUILD: LegacyTrans.Builder := map[(2, 0) := [3, 8], (1, 0) := [3, 9]]

  lemma ModifiedAsks(junk: LegacyTrans.Buffer)
    ensures LegacyTrans.Asked(MODIFIED, 0, BUILD, junk) == Some(LegacyTrans.Request(0, [3, 8], [3, 9]))
  {
    var s0 := LegacyTrans.Start(junk);
    var s1 := LegacyTrans.Round(MODIFIED, BUILD, s0);
    assert s1.last[..2] == [3, 8] && s1.len == 2 && s1.links == [];
    var a1, a2: seq<LegacyTrans.Arg> := MODIFIED[1..], MODIFIED[2..];
    var s2 := LegacyTrans.Round(a1, BUILD, s1);
    assert s2.first == [3, 8] && s2.links == [0];
    var s3 := LegacyTrans.Round(a2, BUILD, s2);
    assert s3.last[..2] == [3, 9];
    assert a1[1..] == a2 && a2[1..] == [];
    hide LegacyTrans.Round;
    assert LegacyTrans.Scanned(a2, BUILD, s2) == LegacyTrans.Scanned([], BUILD, s3) == s3;
    assert LegacyTrans.Scanned(a1, BUILD, s1) == s3;
  }

  /** The transaction as fbird_trans leaves it. */
  function ReadOnly(): Trans { Trans(Some(0), false, 0, false, [3, 9], false, Some(Handle([3, 8], [], false)), [], []) }

  lemma ModifiedStarts(junk: LegacyTrans.Buffer)
    ensures var w := Step(Step(Empty(RULES), Connect(false), YES), StartLegacy(MODIFIED, 0, BUILD, junk), YES);
            Working(w, 1) && Same(w.trans[1], ReadOnly())
  {
    hide LegacyTrans.Asked;
    ModifiedAsks(junk);
  }

  lemma Restarts(w: World)
    requires Working(w, 1) && Same(w.trans[1], ReadOnly())
    ensures var r := Step(w, End(1, CommitRet), YES);
            1 in r.trans && r.trans[1].handle == Some(Handle([3, 9], [], false))
  {
    hide CommitRestart, EndSwitch, SameLayout, OnlyTrans, Put;
    CommitRestartIs(w, 1, YES);
    HardPathTaken(w, 1, YES);
    PutIs(w, 1, ReadOnly().(handle := Some(Handle([3, 9], [], false)), retain := false), w.durable + [], w.tick + 3);
  }

  lemma PutIs(w: World, t: Addr, tr: Trans, d: seq<Work>, k: nat)
    ensures t in Put(w, t, tr, d, k).trans && Put(w, t, tr, d, k).trans[t] == tr
  {}

  /** The transaction is started read-only; a commit_ret that restarts it makes it read-write. */
  lemma BlockIsNotKept(junk: LegacyTrans.Buffer)
    ensures var start := [Connect(false), StartLegacy(MODIFIED, 0, BUILD, junk)];
            var (w, r) := (Run(Empty(RULES), start, YES), Run(Empty(RULES), start + [End(1, CommitRet)], YES));
            && 1 in w.trans && w.trans[1].handle == Some(Handle([3, 8], [], false))
            && 1 in r.trans && r.trans[1].handle == Some(Handle([3, 9], [], false))
            && !LegacyTrans.Respected(MODIFIED, BUILD, junk)
  {
    hide Run, Step, LegacyTrans.Asked, LegacyTrans.Respected;
    ModifiedAsks(junk);
    LegacyTrans.StoredIsStarted(MODIFIED, 0, BUILD, junk);
    var (a, b) := (Connect(false), StartLegacy(MODIFIED, 0, BUILD, junk));
    RunTwo(Empty(RULES), a, b, YES);
    RunSplit(Empty(RULES), [a, b], [End(1, CommitRet)], YES);
    var w := Step(Step(Empty(RULES), a, YES), b, YES);
    RunOne(w, End(1, CommitRet), YES);
    ModifiedStarts(junk);
    Restarts(w);
  }
}
