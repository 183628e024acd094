/** Link close, table drop and batches, and every entry point of the extension as one step of a World. */
module Steps {
  import opened State
  import opened Transactions
  import opened Queries
  import LegacyTrans

  // ------------------------------------------------------------ links (fbird_connection.c:93-230)

  /** The first node of tr_list is freed. */
  function PopNode(w: World, l: Addr): World {
    if l !in w.links || w.links[l].trs == [] then Fault(w)
    else w.(links := w.links[l := w.links[l].(trs := w.links[l].trs[1..])])
  }

  /** One round of the loop of _php_fbird_commit_link: a default transaction is committed and freed, any
      other one is rolled back and loses its link. A dead attachment only drops the handle. */
  function CloseNode(w: World, l: Addr, alive: bool, net: Net): World {
    if l !in w.links || w.links[l].trs == [] then Fault(w)
    else
      match w.links[l].trs[0]
      case None => PopNode(w, l)
      case Some(t) =>
        if t !in w.trans then Fault(w)
        else
          var isDefault := w.trans[t].isDefault;
          var w1 := EndAndDrop(w, t, alive, isDefault, net);
          if t !in w1.trans then Fault(w1)
          else if isDefault then DetachAndFree(PopNode(w1, l), t)
          else SetT(PopNode(w1, l), t, w1.trans[t].(link := if w1.trans[t].link == Some(l) then None
          else w1.trans[t].link))
  }

  /** _php_fbird_commit_link, with `n` nodes still to go. */
  function CloseNodes(w: World, l: Addr, n: nat, alive: bool, net: Net): World
    decreases n
  {
    if n == 0 then w else CloseNodes(CloseNode(w, l, alive, net), l, n - 1, alive, net)
  }

  /** _php_fbird_close_link */
  function CloseLink(w: World, l: Addr, net: Net): World {
    if l !in w.links then Fault(w)
    else
      var w1 := CloseNodes(Tick(w), l, |w.links[l].trs|, net(w.tick), net);
      w1.(links := w1.links - {l})
  }

  // ------------------------------------------------------------ tables (fbird_inspection.c:175-338)

  function Blank(trs: seq<Option<Addr>>, t: Addr): seq<Option<Addr>> {
    if trs == [] then [] else if trs[0] == Some(t) then [None] + trs[1..] else [trs[0]] + Blank(trs[1..], t)
  }

  /** A default transaction leaves its tr_list node behind, empty, and is freed. */
  function DropDefault(w: World, t: Addr): World {
    if t !in w.trans then Fault(w)
    else
      match w.trans[t].link
      case None => DetachAndFree(w, t)
      case Some(l) =>
        if l !in w.links then Fault(w)
        else DetachAndFree(w.(links := w.links[l := w.links[l].(trs := Blank(w.links[l].trs, t))]), t)
  }

  /** _fbird_drop_table: run the DROP, commit, and take the transaction off its link. */
  function DropTable(w: World, t: Addr, net: Net): World {
    if t !in w.trans then Fault(w)
    else if w.trans[t].handle.None? || !net(w.tick) then Tick(w)
    else
      var w1 := AddWork(Tick(w), t, Ddl, NOTHING);
      var (ok, w2) := TryCommit(w1, t, net);
      if !ok then w2
      else
        var w3 := FreeHandle(w2, t);
        if w.trans[t].isDefault then DropDefault(w3, t) else UnlinkTrans(w3, t)
  }

  // ------------------------------------------------------------ batches (fbird_batch.c, fbird_class_batch.c)

  /** A new batch at the head of the transaction's registry. */
  function EnlistBatch(w: World, q: Addr, t: Addr): World {
    if t !in w.trans then Fault(w)
    else
      w.(batches := w.batches[w.next := Batch(Some(t), Some(t), q, true)],
         trans := w.trans[t := w.trans[t].(batches := [w.next] + w.trans[t].batches)],
         next := w.next + 1)
  }

  function BatchCreate(w: World, q: Addr, explicit: Option<Addr>, net: Net): World {
    if q !in w.queries then Fault(w)
    else
      var qq := w.queries[q];
      var target := if explicit.Some? then explicit else qq.trans;
      if qq.stmt.None? || target.None? then w
      else if target.value !in w.trans then Fault(w)
      else if w.trans[target.value].handle.None? then w
      else
        var w1 := UseStmt(w, qq.stmt.value);
        if qq.inputs == 0 then w1   // a batch needs parameters
        else if !net(w.tick) then Tick(w1) else EnlistBatch(Tick(w1), q, target.value)
  }

  function BatchExecute(w: World, b: Addr, net: Net): World {
    if b !in w.batches then Fault(w)
    else
      var bb := w.batches[b];
      if !bb.wrapper || bb.trans.None? then w
      else if bb.trans.value !in w.trans then Fault(w)
      else if w.trans[bb.trans.value].handle.None? then w
      else if !net(w.tick) then Tick(w)
      else AddWork(Tick(w).(batches := w.batches[b := bb.(wrapper := false)]), bb.trans.value, Dml, NOTHING)
  }

  function BatchCancel(w: World, b: Addr, net: Net): World {
    if b !in w.batches then Fault(w)
    else if !w.batches[b].wrapper || !net(w.tick) then Tick(w)
    else Tick(w).(batches := w.batches[b := w.batches[b].(wrapper := false)])
  }

  /** The batch leaves its registry and is freed. No idle release follows. */
  function RemoveBatch(w: World, b: Addr): World {
    if b !in w.batches then Fault(w)
    else
      match w.batches[b].reg
      case None => w.(batches := w.batches - {b})
      case Some(t) =>
        if t !in w.trans then Fault(w)
        else w.(batches := w.batches - {b},
                trans := w.trans[t := w.trans[t].(batches := Without(w.trans[t].batches, b))])
  }

  /** _php_fbird_free_batch and fbird_batch_free_obj. When the batch held the last reference to its query
      (`last`), the query is destroyed first. */
  function BatchFree(w: World, b: Addr, last: bool, net: Net): World {
    if b !in w.batches then Fault(w)
    else if last && w.batches[b].query in w.queries then RemoveBatch(FreeQuery(w, w.batches[b].query, net), b)
    else RemoveBatch(w, b)
  }

  // ------------------------------------------------------------ steps

  /** What a call names: a link, meaning its default transaction, an explicit transaction, or both.  Nothing
      asks whether the two belong together. */
  datatype Target = OnLink(l: Addr) | OnTrans(t: Addr) | OnBoth(l: Addr, t: Addr)

  predicate Names(on: Target, t: Addr) { !on.OnLink? && on.t == t }

  datatype Op =
    | Connect(persistent: bool)
    | StartTrans(l: Addr, tpb: seq<Byte>)                           // fbird_trans_start
    | StartLegacy(args: seq<LegacyTrans.Arg>, fallback: Addr,       // fbird_trans
                  build: LegacyTrans.Builder, junk: LegacyTrans.Buffer)
    | TouchDefault(l: Addr, dflt: seq<Byte>)                        // any call that only needs the default transaction
    | PrepareStmt(on: Target, kind: Kind, form: Form, dflt: seq<Byte>)
    | Execute(q: Addr, input: Input)
    | Once(on: Target, kind: Kind, form: Form, input: Input)      // fbird_query and its relatives
    | Auto(l: Addr, kind: Kind, form: Form, input: Input)         // fbird_execute_auto
    | FetchRow(q: Addr, contents: seq<Column>)
    | Free(q: Addr)
    | NewBatch(q: Addr, explicit: Option<Addr>)
    | ExecuteBatch(b: Addr)
    | CancelBatch(b: Addr)
    | FreeBatch(b: Addr, last: bool)
    | End(t: Addr, mode: Mode)
    | EndObject(t: Addr, commit: bool)
    | Release(t: Addr)
    | DestroyTrans(t: Addr)
    | Drop(on: Target, dflt: seq<Byte>)
    | Close(l: Addr)

  /** PHP only lets a call through when its arguments are live resources of the right type; a default
      transaction is not a resource. */
  predicate Explicit(w: World, t: Addr) { t in w.trans && !w.trans[t].isDefault }

  predicate Live(w: World, on: Target) {
    (!on.OnTrans? ==> on.l in w.links) && (!on.OnLink? ==> Explicit(w, on.t))
  }

  predicate Accepted(w: World, op: Op) {
    match op
    case Connect(_) => true
    case StartTrans(l, _) => l in w.links
    case StartLegacy(args, fallback, build, junk) =>
      var r := LegacyTrans.Asked(args, fallback, build, junk);
      r.Some? ==> r.value.l in w.links
    case TouchDefault(l, _) => l in w.links
    case PrepareStmt(on, _, _, _) => Live(w, on)
    case Execute(q, _) => q in w.queries
    case Once(on, _, _, _) => Live(w, on)
    case Auto(l, _, _, _) => l in w.links
    case FetchRow(q, _) => q in w.queries
    case Free(q) => q in w.queries
    case NewBatch(q, explicit) => q in w.queries && (explicit.Some? ==> Explicit(w, explicit.value))
    case ExecuteBatch(b) => b in w.batches
    case CancelBatch(b) => b in w.batches
    case FreeBatch(b, _) => b in w.batches
    case End(t, _) => t in w.trans
    case EndObject(t, _) => Explicit(w, t)
    case Release(t) => t in w.trans
    case DestroyTrans(t) => Explicit(w, t)
    case Drop(on, _) => Live(w, on) && !on.OnBoth?   // fbird_drop_table_force takes one of them
    case Close(l) => l in w.links
  }

  /** The link and transaction a call works on: the default transaction of a link, made or restarted as
      needed, an explicit transaction with the link it still has, or the two that are named. */
  function Resolve(w: World, on: Target, dflt: seq<Byte>, net: Net): (Option<(Addr, Addr)>, World) {
    match on
    case OnTrans(t) =>
      if t !in w.trans then (None, Fault(w))
      else if w.trans[t].link.None? then (None, w)
      else (Some((w.trans[t].link.value, t)), w)
    case OnBoth(l, t) => if l !in w.links || t !in w.trans then (None, Fault(w)) else (Some((l, t)), w)
    case OnLink(l) =>
      var (t, w1) := DefTrans(w, l, dflt, net);
      if t.None? then (None, w1) else (Some((l, t.value)), w1)
  }

  function StartOn(w: World, l: Addr, started: seq<Byte>, stored: seq<Byte>, net: Net): World {
    if l !in w.links then Fault(w)
    else if !net(w.tick) then Tick(w)
    else NewTrans(Tick(w), l, FreshTrans(l, false, stored, started == stored, Some(Handle(started, [], false))))
  }

  /** fbird_trans with more than one link is refused. */
  function StartAsked(w: World, r: Option<LegacyTrans.Request>, net: Net): World {
    match r
    case None => w
    case Some(request) => StartOn(w, request.l, request.started, request.stored, net)
  }

  function RunTarget(w: World, on: Target, kind: Kind, form: Form, input: Input, net: Net): World {
    var (target, w1) := Resolve(w, on, input.dflt, net);
    if target.None? then w1
    else
      var (l, t) := target.value;
      if !on.OnLink? && t in w1.trans && w1.trans[t].handle.None? then w1
      else RunOnce(w1, l, t, !on.OnLink?, kind, form, input, net)
  }

  function PrepareTarget(w: World, on: Target, kind: Kind, form: Form, dflt: seq<Byte>, net: Net): World {
    var (target, w1) := Resolve(w, on, dflt, net);
    if target.None? then w1 else Prepare(w1, target.value.0, target.value.1, !on.OnLink?, kind, form, net).1
  }

  function DropTarget(w: World, on: Target, dflt: seq<Byte>, net: Net): World {
    var (target, w1) := Resolve(w, on, dflt, net);
    if target.None? then w1 else DropTable(w1, target.value.1, net)
  }

  function Perform(w: World, op: Op, net: Net): World {
    match op
    case Connect(persistent) => w.(links := w.links[w.next := Link(persistent, [])], next := w.next + 1)
    case StartTrans(l, tpb) => StartOn(w, l, tpb, tpb, net)
    case StartLegacy(args, fallback, build, junk) => StartAsked(w, LegacyTrans.Asked(args, fallback, build, junk), net)
    case TouchDefault(l, dflt) => DefTrans(w, l, dflt, net).1
    case PrepareStmt(on, kind, form, dflt) => PrepareTarget(w, on, kind, form, dflt, net)
    case Execute(q, input) => Exec(w, q, input, net).1
    case Once(on, kind, form, input) => RunTarget(w, on, kind, form, input, net)
    case Auto(l, kind, form, input) => ExecuteAuto(w, l, kind, form, input, net)
    case FetchRow(q, contents) => Fetch(w, q, contents, net)
    case Free(q) => FreeQuery(w, q, net)
    case NewBatch(q, explicit) => BatchCreate(w, q, explicit, net)
    case ExecuteBatch(b) => BatchExecute(w, b, net)
    case CancelBatch(b) => BatchCancel(w, b, net)
    case FreeBatch(b, last) => BatchFree(w, b, last, net)
    case End(t, mode) => TransEnd(w, t, mode, net).1
    case EndObject(t, commit) => ObjectEnd(w, t, commit, net)
    case Release(t) => ReleaseLocks(w, t, net)
    case DestroyTrans(t) => FreeTrans(w, t, net)
    case Drop(on, dflt) => DropTarget(w, on, dflt, net)
    case Close(l) => CloseLink(w, l, net)
  }

  /** One call from PHP. A call with a resource that is no longer valid is refused. */
  function Step(w: World, op: Op, net: Net): World {
    if Accepted(w, op) then Perform(w, op, net) else w
  }

  function Run(w: World, ops: seq<Op>, net: Net): World
    decreases |ops|
  {
    if ops == [] then w else Run(Step(w, ops[0], net), ops[1..], net)
  }
}
