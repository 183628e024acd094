/** fbird_query_prepare.c and fbird_query_exec.c, as functions on a World. */
module Queries {
  import opened State
  import opened Transactions

  /** Any call that hands a statement handle to the client library. */
  function UseStmt(w: World, s: Addr): World { if s in w.stmts then w else Fault(w) }

  /** fbs_free */
  function FreeStmt(w: World, s: Addr): World { w.(stmts := w.stmts - {s}, fault := w.fault || s !in w.stmts) }

  /** Closes a cursor and clears has_more_rows, as every failed or finished execution does. */
  function Shut(w: World, q: Addr, net: Net): (r: World)
    ensures SameLayout(w, r) && OnlyFlags(w.queries, r.queries, q)
  {
    SetMore(CursorClosed(w, q, net), q, false)
  }

  // ------------------------------------------------------------ freeing (fbird_query_prepare.c:160-276)

  /** Closes the cursor of a query that is going away; `mirror` is whether its parent, if any, is closed
      too (a query freed by its own parent has had its parent pointer cleared). */
  function CloseForFree(w: World, q: Addr, mirror: bool, net: Net): World {
    if q !in w.queries then Fault(w)
    else if w.queries[q].stmt.None? || !w.queries[q].isOpen then w
    else
      var w1 := Shut(UseStmt(w, w.queries[q].stmt.value), q, net);
      match w.queries[q].parent
      case Some(p) => if mirror then Shut(w1, p, net) else w1
      case None => w1
  }

  /** fbs_free when the query owns its handle; the handle is forgotten either way. */
  function DropStmt(w: World, q: Addr): World {
    if q !in w.queries then Fault(w)
    else
      var qq := w.queries[q];
      if qq.stmt.Some? && qq.owns then SetQ(FreeStmt(w, qq.stmt.value), q, qq.(stmt := None, owns := false)) else w
  }

  /** The commit of the default transaction when a result that had an open cursor is freed. */
  function CommitOnFree(w: World, q: Addr, had: bool, net: Net): World {
    if q !in w.queries then Fault(w)
    else
      var qq := w.queries[q];
      if !had || qq.explicit || qq.trans.None? then w
      else
        var t := qq.trans.value;
        if t !in w.trans then Fault(w)
        else if w.trans[t].handle.None? || w.trans[t].count != 0 then w
        else if qq.link !in w.links then Fault(w)
        else
          var alive := net(w.tick);
          if !w.trans[t].isDefault then Tick(w)
          else if !alive then FreeHandle(Tick(w), t)
          else if w.links[qq.link].persistent then Tick(w)
          else EndAndDrop(Tick(w), t, true, true, net)
  }

  /** The structs left when `q` has been unlinked from its parent's child list and freed. */
  function Pruned(Q: map<Addr, Query>, q: Addr): map<Addr, Query>
    requires q in Q
  {
    if Q[q].parent.None? || Q[q].parent.value !in Q then Q - {q}
    else var p := Q[q].parent.value; Q[p := Q[p].(children := Without(Q[p].children, q))] - {q}
  }

  /** The struct leaves its registry and its parent's child list and is freed. */
  function RemoveQuery(w: World, q: Addr): World {
    if q !in w.queries then Fault(w)
    else
      var qq := w.queries[q];
      if qq.reg.Some? && qq.reg.value !in w.trans then Fault(w)
      else if qq.parent.Some? && qq.parent.value !in w.queries then Fault(w)
      else w.(trans := Left(w.trans, qq.reg, q), queries := Pruned(w.queries, q))
  }

  /** php_fbird_free_query_rsrc for a query whose children are gone. */
  function DestroyLeaf(w: World, q: Addr, mirror: bool, net: Net): World {
    if q !in w.queries then Fault(w)
    else
      var qq := w.queries[q];
      var w1 := DropStmt(CloseForFree(w, q, mirror, net), q);
      var w2 := RemoveQuery(CommitOnFree(w1, q, qq.isOpen, net), q);
      if qq.trans.Some? then ReleaseIfIdle(w2, qq.trans.value, net) else w2
  }

  /** php_fbird_free_query_rsrc: the children first, each with its own children, then the query. */
  function FreeTree(w: World, q: Addr, mirror: bool, end: nat, net: Net): World
    decreases end - q, 1, 0
  {
    if q !in w.queries then Fault(w)
    else DestroyLeaf(FreeAll(w, q, w.queries[q].children, end, net), q, mirror, net)
  }

  /** The loop over the child list of `q`; a list that led back to an ancestor would never end. */
  function FreeAll(w: World, q: Addr, children: seq<Addr>, end: nat, net: Net): World
    decreases end - q, 0, |children|
  {
    if children == [] then w
    else if !(q < children[0] < end) then Fault(w)
    else FreeAll(FreeTree(w, children[0], false, end, net), q, children[1..], end, net)
  }

  function FreeQuery(w: World, q: Addr, net: Net): World { FreeTree(w, q, true, w.next, net) }

  // ------------------------------------------------------------ preparing (fbird_query_prepare.c:286-552)

  /** The structs after `qq` has been allocated at `q` and pushed on its parent's child list. */
  function Adopted(Q: map<Addr, Query>, q: Addr, qq: Query): map<Addr, Query> {
    if qq.parent.None? || qq.parent.value !in Q then Q[q := qq]
    else var p := qq.parent.value; Q[q := qq][p := Q[p].(children := [q] + Q[p].children)]
  }

  /** Allocates a query struct, enrolled at the head of its transaction's registry. */
  function NewQuery(w: World, t: Addr, qq: Query): World {
    if t !in w.trans || (qq.parent.Some? && qq.parent.value !in w.queries) then Fault(w)
    else
      w.(queries := Adopted(w.queries, w.next, qq.(trans := Some(t), reg := Some(t))),
         trans := w.trans[t := w.trans[t].(queries := [w.next] + w.trans[t].queries)],
         next := w.next + 1)
  }

  function FreshQuery(l: Addr, explicit: bool, kind: Kind): Query {
    Query(l, None, None, explicit, kind, 0, 0, 0, false, false, false, false, None, true, None, [])
  }

  /** The statement handle made by fbs_prepare is kept in the query. */
  function AttachStmt(w: World, q: Addr): World {
    if q !in w.queries then Fault(w)
    else SetQ(w, q, w.queries[q].(stmt := Some(w.next))).(stmts := w.stmts + {w.next}, next := w.next + 1)
  }

  /** _php_fbird_prepare: the struct is made and enrolled before anything can fail. On failure the
      half-made query goes through the ordinary destructor. */
  function Prepare(w: World, l: Addr, t: Addr, explicit: bool, kind: Kind, form: Form, net: Net): (Option<Addr>,
      World) {
    if l !in w.links || t !in w.trans then (None, Fault(w))
    else PrepareOn(NewQuery(w, t, FreshQuery(l, explicit, kind)), w.next, t, form, net)
  }

  /** The server says whether the statement is valid ... */
  function PrepareOn(w: World, q: Addr, t: Addr, form: Form, net: Net): (Option<Addr>, World) {
    if t !in w.trans then (None, Fault(w))
    else if w.trans[t].handle.None? then (None, FreeQuery(w, q, net))
    else if !net(w.tick) then (None, FreeQuery(Tick(w), q, net))
    else Describe(AttachStmt(Tick(w), q), q, form, net)
  }

  /** The column count, and the bind buffer of a statement with parameters. */
  function Described(qq: Query, form: Form): Query {
    qq.(columns := form.columns, sqld := form.columns, inputs := form.inputs, canBind := form.inputs > 0)
  }

  /** ... and whether its metadata can be read. */
  function Describe(w: World, q: Addr, form: Form, net: Net): (Option<Addr>, World) {
    if !net(w.tick) || form.columns > MAX_COLUMNS || q !in w.queries then (None, FreeQuery(Tick(w), q, net))
    else (Some(q), SetQ(Tick(w), q, Described(w.queries[q], form)))
  }

  // ------------------------------------------------------------ executing (fbird_query_exec.c:88-1170)

  /** How much pending work a savepoint statement leaves, and whether a SELECT writes, as one from a procedure
      may. */
  datatype Effect = Effect(keep: nat, writes: bool)

  const NOTHING: Effect := Effect(0, false)

  /** What the caller and the server contribute to one execution: the number of arguments, whether binding
      reaches a BLOB given by value or a PHP array (`byValue`), whether it succeeds otherwise, the current
      default parameter block, and what the statement does to the pending work. */
  datatype Input = Input(args: nat, byValue: bool, bindOk: bool, dflt: seq<Byte>, effect: Effect)

  datatype Reply = Failure | Done | Result(q: Addr) | NewTransaction(t: Addr)

  /** A cursor still open from an earlier execution is closed first. */
  function CloseForReexec(w: World, q: Addr, net: Net): World {
    if q !in w.queries then Fault(w)
    else if w.queries[q].kind.Procedure? || !w.queries[q].isOpen then w
    else
      var w1 := if w.queries[q].stmt.Some? then UseStmt(w, w.queries[q].stmt.value) else w;
      Shut(w1, q, net)
  }

  /** The query leaves its ended default transaction for the one the link has, or gets, now. */
  function Rehome(w: World, q: Addr, l: Addr, dflt: seq<Byte>, net: Net): (bool, World) {
    var (t, w1) := DefTrans(Unenroll(w, q), l, dflt, net);
    if t.None? then (false, w1) else (true, Enroll(w1, q, t.value))
  }

  /** A default transaction that autocommit ended is started again. */
  function EnsureDefault(w: World, q: Addr, dflt: seq<Byte>, net: Net): (bool, World) {
    if q !in w.queries then (false, Fault(w))
    else
      var qq := w.queries[q];
      if qq.trans.None? then (true, w)
      else if qq.trans.value !in w.trans then (false, Fault(w))
      else if w.trans[qq.trans.value].handle.Some? || qq.explicit then (true, w)
      else if qq.link !in w.links then (false, Fault(w))
      else Rehome(w, q, qq.link, dflt, net)
  }

  /** DDL on an explicit transaction with open cursors (or auto_ddl_commit) commits and restarts first;
      retain_committed is left as it was. A failed commit is ignored. */
  function DdlGate(w: World, q: Addr, net: Net): (bool, World) {
    if q !in w.queries then (false, Fault(w))
    else
      var qq := w.queries[q];
      if !qq.kind.Ddl? || qq.trans.None? || !qq.explicit then (true, w)
      else
        var t := qq.trans.value;
        if t !in w.trans then (false, Fault(w))
        else if w.trans[t].handle.None? then (true, w)
        else if qq.link !in w.links then (false, Fault(w))
        else if !(w.rules.autoDdl || w.trans[t].count > 0) then (true, w)
        else
          var (ok, w1) := TryCommit(w, t, net);
          if ok then Start(FreeHandle(w1, t), t, w.trans[t].tpb, net) else (true, w1)
  }

  /** Adds the effect of one statement to the pending work of `t`. */
  function AddWork(w: World, t: Addr, kind: Kind, effect: Effect): World {
    if t !in w.trans || w.trans[t].handle.None? then Fault(w)
    else
      var h := w.trans[t].handle.value;
      match kind
      case Select => if effect.writes then MoreWork(w, t) else w
      case Savepoint =>
        SetT(w, t, w.trans[t].(handle := Some(h.(pending := h.pending[..Min(effect.keep, |h.pending|)]))))
      case _ => MoreWork(w, t)
  }

  /** One new piece of work. */
  function MoreWork(w: World, t: Addr): World
    requires t in w.trans && w.trans[t].handle.Some?
  {
    var h := w.trans[t].handle.value;
    SetT(w, t, w.trans[t].(handle := Some(h.(pending := h.pending + [w.next])))).(next := w.next + 1)
  }

  predicate OneShot(kind: Kind) { kind.Procedure? || kind.Dml? }

  /** Opens the cursor or executes; DML with RETURNING then also fetches its row (the second answer is
      the fetch, the third whether a row came). */
  function RunStatement(w: World, q: Addr, effect: Effect, net: Net): (bool, World) {
    if q !in w.queries then (false, Fault(w))
    else
      var qq := w.queries[q];
      if qq.stmt.None? || qq.trans.None? then (false, w)
      else if qq.trans.value !in w.trans then (false, Fault(w))
      else if w.trans[qq.trans.value].handle.None? || qq.kind.Unsupported? then (false, w)
      else
        var w1 := UseStmt(w, qq.stmt.value);
        if !net(w1.tick) then (false, Tick(w1))
        else
          var w2 := AddWork(Tick(w1), qq.trans.value, qq.kind, effect);
          if !(qq.kind.Dml? && qq.columns > 0) then (true, w2)
          else if !net(w2.tick) then (false, Tick(w2))
          else if !net(w2.tick + 1) || q !in w2.queries then (true, Tick(Tick(w2)))
          else (true, SetQ(Tick(Tick(w2)), q, w2.queries[q].(once := true)))
  }

  /** _php_fbird_close_tx_cursors from the i-th entry of the resource list on: how many were closed. */
  function CloseCursors(w: World, t: Addr, i: nat, end: nat, net: Net): (nat, World)
    decreases end - i
  {
    if i >= end then (0, w)
    else if i in w.queries && w.queries[i].isOpen && w.queries[i].trans == Some(t) then
      var (n, w1) := CloseCursors(Shut(w, i, net), t, i + 1, end, net);
      (n + 1, w1)
    else CloseCursors(w, t, i + 1, end, net)
  }

  /** Autocommit of `t`: commit, once more after closing its cursors when `retry`, and drop the handle. */
  function AutoCommit(w: World, t: Addr, retry: bool, net: Net): World {
    if t !in w.trans then Fault(w)
    else
      var (ok, w1) := TryCommit(w, t, net);
      if ok || !retry || t !in w1.trans || w1.trans[t].count == 0 then FreeHandle(w1, t)
      else
        var (n, w2) := CloseCursors(w1, t, 0, w1.next, net);
        FreeHandle(if n > 0 then TryCommit(w2, t, net).1 else w2, t)
  }

  /** DDL executed on the default transaction is committed at once, when that transaction is the first
      one on tr_list of a link that is not persistent. */
  function DdlAutocommit(w: World, q: Addr, net: Net): World {
    if q !in w.queries then Fault(w)
    else
      var qq := w.queries[q];
      if !qq.kind.Ddl? || qq.trans.None? then w
      else
        var t := qq.trans.value;
        if t !in w.trans then Fault(w)
        else if w.trans[t].handle.None? || qq.explicit then w
        else if qq.link !in w.links then Fault(w)
        else
          var l := w.links[qq.link];
          if l.trs == [] || l.trs[0] != Some(t) || l.persistent then w else AutoCommit(w, t, true, net)
  }

  /** The result struct of an executed query: a child sharing the statement handle for SELECT, an
      independent one-shot result otherwise. */
  function ResultOf(qq: Query, q: Addr): Query {
    var shared := !OneShot(qq.kind);
    Query(qq.link, None, None, qq.explicit, qq.kind, qq.columns, qq.columns, qq.inputs, false, false, true,
          shared || qq.once, if shared then qq.stmt else None, false, if shared then Some(q) else None, [])
  }

  /** Makes and enrols the result. A field-count mismatch would free it while it is enrolled. */
  function MakeResult(w: World, q: Addr): (Reply, World) {
    if q !in w.queries then (Failure, Fault(w))
    else
      var qq := w.queries[q];
      if qq.trans.None? || qq.sqld != qq.columns ||
          (OneShot(qq.kind) && qq.columns > MAX_COLUMNS) then (Failure, Fault(w))
      else (Result(w.next), CursorOpened(NewQuery(w, qq.trans.value, ResultOf(qq, q)), w.next))
  }

  /** A SELECT leaves its query's cursor open and makes a result; without output columns it would return
      its own resource. */
  function FinishSelect(w: World, q: Addr): (Reply, World) {
    var w1 := SetMore(CursorOpened(w, q), q, true);
    if q !in w1.queries then (Failure, Fault(w1))
    else if w1.queries[q].columns > 0 then MakeResult(w1, q)
    else (Result(q), w1)
  }

  /** What follows a statement that ran. */
  function Finish(w: World, q: Addr, net: Net): (Reply, World) {
    if q !in w.queries then (Failure, Fault(w))
    else
      var qq := w.queries[q];
      var w1 := DdlAutocommit(w, q, net);
      if qq.kind.Select? then FinishSelect(w1, q)
      else if OneShot(qq.kind) && qq.columns > 0 then MakeResult(w1, q)
      else if OneShot(qq.kind) then (if net(w1.tick) then Done else Failure, Shut(Tick(w1), q, net))
      else (Done, Shut(w1, q, net))
  }

  /** SET TRANSACTION as SQL: a new transaction with the server's default block. */
  function SetTransaction(w: World, q: Addr, l: Addr, net: Net): (Reply, World) {
    if l !in w.links then (Failure, Fault(w))
    else if !net(w.tick) then (Failure, Shut(Tick(w), q, net))
    else (NewTransaction(w.next), NewTrans(Tick(w), l, FreshTrans(l, false, [], true, Some(Handle([], [], false)))))
  }

  /** COMMIT or ROLLBACK as SQL: the handle is dropped, retain_committed is kept. */
  function EndBySql(w: World, q: Addr, t: Addr, commit: bool, net: Net): (Reply, World) {
    if t !in w.trans then (Failure, Fault(w))
    else if w.trans[t].handle.None? then (Failure, Shut(w, q, net))
    else
      var (ok, w1) := if commit then TryCommit(w, t, net) else TryRollback(w, t, net);
      if ok then (Done, FreeHandle(w1, t)) else (Failure, Shut(w1, q, net))
  }

  function Control(w: World, q: Addr, net: Net): (Reply, World) {
    if q !in w.queries then (Failure, Fault(w))
    else
      var qq := w.queries[q];
      if qq.kind.SetTrans? then SetTransaction(w, q, qq.link, net)
      else if qq.trans.None? then (Failure, Shut(w, q, net))
      else EndBySql(w, q, qq.trans.value, qq.kind.CommitSql?, net)
  }

  predicate IsControl(kind: Kind) { kind.SetTrans? || kind.CommitSql? || kind.RollbackSql? }

  /** _php_fbird_bind, as far as it follows pointers: every parameter is written to the bind buffer, which a
      result does not have, and a BLOB given by value or an array is stored through the link and in the
      transaction of the query. */
  function Bind(w: World, q: Addr, input: Input): (bool, World) {
    if q !in w.queries then (false, Fault(w))
    else
      var qq := w.queries[q];
      if qq.inputs == 0 then (true, w)
      else if !qq.canBind then (false, Fault(w))
      else if !input.byValue then (input.bindOk, w)
      else if qq.link !in w.links then (false, Fault(w))
      else if qq.trans.None? then (false, w)
      else if qq.trans.value !in w.trans then (false, Fault(w))
      else (input.bindOk && w.trans[qq.trans.value].handle.Some?, w)
  }

  /** Everything of _php_fbird_exec after the transaction-control statements. */
  function ExecPlain(w: World, q: Addr, input: Input, net: Net): (Reply, World) {
    var (bound, w1) := Bind(w, q, input);
    if !bound then (Failure, Shut(w1, q, net))
    else
      var (live, w2) := EnsureDefault(w1, q, input.dflt, net);
      if !live then (Failure, w2)
      else
        var (gate, w3) := DdlGate(w2, q, net);
        if !gate then (Failure, Shut(w3, q, net))
        else
          var (ran, w4) := RunStatement(w3, q, input.effect, net);
          if ran then Finish(w4, q, net) else (Failure, Shut(w4, q, net))
  }

  /** _php_fbird_exec */
  function Exec(w: World, q: Addr, input: Input, net: Net): (Reply, World) {
    if q !in w.queries then (Failure, Fault(w))
    else if input.args < w.queries[q].inputs then (Failure, w)
    else
      var w1 := CloseForReexec(w, q, net);
      if IsControl(w.queries[q].kind) then Control(w1, q, net) else ExecPlain(w1, q, input, net)
  }

  /** The structs after the statement handle of `q` has passed to its only result `r`. */
  function HandedOver(Q: map<Addr, Query>, q: Addr, r: Addr): map<Addr, Query>
    requires q in Q && r in Q
  {
    Q[r := Q[r].(owns := true, parent := None)][q := Q[q].(children := [], stmt := None, owns := false)]
  }

  function Transfer(w: World, q: Addr, r: Addr): World {
    if q !in w.queries || r !in w.queries then Fault(w) else w.(queries := HandedOver(w.queries, q, r))
  }

  /** The end of a one-shot call: a SELECT result inherits the handle, then the prepared query is freed. */
  function Settle(w: World, q: Addr, reply: Reply, net: Net): World {
    if q !in w.queries then Fault(w)
    else if reply == Result(q) then w
    else if reply.Result? && reply.q in w.queries && w.queries[reply.q].parent == Some(q) then
      FreeQuery(CursorClosed(Transfer(w, q, reply.q), q, net), q, net)
    else FreeQuery(w, q, net)
  }

  /** The autocommit of fbird_query for a statement that returned no resource. */
  function QueryAutocommit(w: World, q: Addr, l: Addr, t: Addr, explicit: bool, reply: Reply, net: Net): World {
    if l !in w.links || q !in w.queries then Fault(w)
    else if explicit then w
    else if t !in w.trans then Fault(w)
    else if w.trans[t].handle.None? || reply.Result? || reply.NewTransaction? || w.links[l].persistent then w
    else AutoCommit(w, t, w.queries[q].kind.Ddl?, net)
  }

  /** Prepare, execute and settle: fbird_query, fbird_execute_query and fbird_query_params_tx once link and
      transaction are known.  fbird_execute_statement settles nothing: it prepares, executes, and frees its
      statement after the result it may have got, each of which is a call of its own here. */
  function RunOnce(w: World, l: Addr, t: Addr, explicit: bool, kind: Kind, form: Form, input: Input, net: Net): World {
    var (q, w1) := Prepare(w, l, t, explicit, kind, form, net);
    if q.None? then w1
    else
      var (reply, w2) := Exec(w1, q.value, input, net);
      if reply.Failure? then FreeQuery(w2, q.value, net)
      else Settle(QueryAutocommit(w2, q.value, l, t, explicit, reply, net), q.value, reply, net)
  }

  /** fbird_execute_auto: a transaction of its own, on no tr_list, that does not outlive the call. */
  function ExecuteAuto(w: World, l: Addr, kind: Kind, form: Form, input: Input, net: Net): World {
    if l !in w.links then Fault(w)
    else if !net(w.tick) then Tick(w)
    else
      var t := w.next;
      var w0 := Tick(w).(trans := w.trans[t := FreshTrans(l, false, [], true, Some(Handle([], [], false)))],
                         next := t + 1);
      var (q, w1) := Prepare(w0, l, t, false, kind, form, net);
      if q.None? then DetachAndFree(EndAndDrop(w1, t, true, false, net), t)
      else
        var (reply, w2) := Exec(w1, q.value, input, net);
        var w3 := FreeQuery(w2, q.value, net);
        DetachAndFree(EndAndDrop(w3, t, true, reply.Done?, net), t)
  }

  // ------------------------------------------------------------ fetching (fbird_result.c:678-752)

  /** A row that is already in the message buffer when the result is made. */
  predicate Buffered(qq: Query) { qq.kind.Procedure? || (qq.kind.Dml? && qq.once) }

  /** After the last row has_more_rows is cleared and the cursor closed. */
  function Exhaust(w: World, q: Addr, net: Net): (r: World)
    ensures SameLayout(w, r) && OnlyFlags(w.queries, r.queries, q)
  {
    CursorClosed(SetMore(w, q, false), q, net)
  }

  /** The cursor part of _php_fbird_fetch_hash_query; the first answer is whether there is a row. */
  function FetchCursor(w: World, q: Addr, net: Net): (bool, World) {
    if q !in w.queries then (false, Fault(w))
    else
      var qq := w.queries[q];
      if !qq.more || !qq.isOpen || qq.columns == 0 then (false, w)
      else if Buffered(qq) || qq.stmt.None? then (Buffered(qq), Exhaust(w, q, net))
      else
        var w1 := UseStmt(w, qq.stmt.value);
        // the first answer is fbs_is_cursor_open, the second whether fbs_fetch delivered a row
        if net(w1.tick) && net(w1.tick + 1) then (true, Tick(Tick(w1)))
        else (false, Exhaust(Tick(Tick(w1)), q, net))
  }

  /** A column whose contents, not its identifier, are asked for (and which is not NULL). */
  datatype Column = BlobColumn | ArrayColumn

  /** The contents are read through the link and in the transaction of the query, in column order until one
      fails. The BLOB reader checks that there is a transaction, the array reader does not. */
  function ReadContents(w: World, q: Addr, contents: seq<Column>, net: Net): (r: World)
    ensures r == w.(tick := r.tick, fault := r.fault)
    decreases contents
  {
    if contents == [] then w
    else if q !in w.queries then Fault(w)
    else
      var qq := w.queries[q];
      if qq.link !in w.links then Fault(w)
      else if qq.trans.None? then (if contents[0].ArrayColumn? then Fault(w) else w)
      else if qq.trans.value !in w.trans then Fault(w)
      else if w.trans[qq.trans.value].handle.None? || !net(w.tick) then Tick(w)
      else ReadContents(Tick(w), q, contents[1..], net)
  }

  /** _php_fbird_fetch_hash_query, as far as cursors and pointers go. */
  function Fetch(w: World, q: Addr, contents: seq<Column>, net: Net): World {
    var (row, w1) := FetchCursor(w, q, net);
    if row then ReadContents(w1, q, contents, net) else w1
  }
}
