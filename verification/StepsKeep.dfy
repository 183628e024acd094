/** Every step keeps the invariant, so every run is free of dangling references. */
module StepsKeep {
  import opened State
  import opened Transactions
  import opened Queries
  import opened Steps
  import LegacyTrans
  import opened Invariant
  import opened TransactionsKeep
  import opened StructureKeeps
  import opened LinksKeep
  import opened QueriesKeep
  import opened ExecKeeps

  // ------------------------------------------------------------ closing a link

  lemma PopKeeps(w: World, l: Addr)
    requires Inv(w, None) && l in w.links && w.links[l].trs != [] && w.links[l].trs[0].None?
    ensures Inv(PopNode(w, l), None)
  {
    hide Registered, Batched, SameLink, Tree, Families, Handles, Columns, Cursors, Parameters, WorkOk, Tallied;
    PopLinked(w.links, w.trans, l);
  }

  lemma PopLinked(L: map<Addr, Link>, T: map<Addr, Trans>, l: Addr)
    requires Linked(L, T, None) && l in L && L[l].trs != [] && L[l].trs[0].None?
    ensures Linked(L[l := L[l].(trs := L[l].trs[1..])], T, None)
  {
    var M := L[l := L[l].(trs := L[l].trs[1..])];
    assert L[l].trs == [L[l].trs[0]] + L[l].trs[1..];
    forall t | t in T ensures TransOnLink(M, T[t], t, None) { assert TransOnLink(L, T[t], t, None); }
    forall k | k in M ensures ListOk(M[k], k, T, None) { assert ListOk(L[k], k, T, None); }
  }

  lemma HeadGone(trs: seq<Option<Addr>>)
    requires trs != [] && forall i, j :: 0 <= i < j < |trs| && trs[i].Some? ==> trs[i] != trs[j]
    ensures trs[0].Some? ==> trs[0] !in trs[1..]
    ensures forall i, j :: 0 <= i < j < |trs| - 1 && trs[1..][i].Some? ==> trs[1..][i] != trs[1..][j]
    ensures forall n :: n != trs[0] ==> (n in trs[1..] <==> n in trs)
  {
    assert forall i :: 0 <= i < |trs| - 1 ==> trs[1..][i] == trs[i + 1];
    assert trs == [trs[0]] + trs[1..];
  }

  /** The head of tr_list is off the list once it has been popped. */
  lemma HeadOff(w: World, l: Addr, t: Addr)
    requires Inv(w, None) && l in w.links && w.links[l].trs != [] && w.links[l].trs[0] == Some(t)
    ensures OffList(w, l, t, w.links[l].trs[1..]) && w.trans[t].link == Some(l)
  {
    var trs := w.links[l].trs;
    assert ListOk(w.links[l], l, w.trans, None);
    hide Inv;
    assert Some(t) in trs;
    HeadGone(trs);
  }

  lemma CloseNodeKeeps(w: World, l: Addr, alive: bool, net: Net)
    requires Inv(w, None) && l in w.links && w.links[l].trs != []
    ensures var w1 := CloseNode(w, l, alive, net);
            Inv(w1, None) && l in w1.links && w1.links[l].trs == w.links[l].trs[1..] && w1.rules == w.rules
  {
    hide Inv, EndAndDrop;
    if w.links[l].trs[0].None? { PopKeeps(w, l); }
    else {
      var t := w.links[l].trs[0].value;
      HeadOff(w, l, t);
      var isDefault := w.trans[t].isDefault;
      EndAndDropKeeps(w, t, alive, isDefault, net, None);
      EndAndDropIs(w, t, alive, isDefault, net);
      var w1 := EndAndDrop(w, t, alive, isDefault, net);
      HeadOff(w1, l, t);
      if isDefault { FreeDefault(w1, l, t, w.links[l].trs[1..], None); FreeKeepsLinks(PopNode(w1, l), t, w1, None); }
      else { UnlistExplicit(w1, l, t, w.links[l].trs[1..], None); }
    }
  }

  lemma FreeKeepsLinks(w: World, t: Addr, w0: World, aux: Option<Addr>)
    requires Inv(w0, aux) && w == w0.(links := w.links) && t in w.trans
    ensures Same(DetachAndFree(w, t).links, w.links)
  {}

  lemma {:induction false} CloseNodesKeeps(w: World, l: Addr, n: nat, alive: bool, net: Net)
    requires Inv(w, None) && l in w.links && n == |w.links[l].trs|
    ensures var w1 := CloseNodes(w, l, n, alive, net);
            Inv(w1, None) && l in w1.links && w1.links[l].trs == [] && w1.rules == w.rules
    decreases n
  {
    hide Inv, CloseNode;
    if n > 0 {
      CloseNodeKeeps(w, l, alive, net);
      CloseNodesKeeps(CloseNode(w, l, alive, net), l, n - 1, alive, net);
    }
  }

  lemma CloseLinkKeeps(w: World, l: Addr, net: Net)
    requires Inv(w, None) && l in w.links
    ensures Inv(CloseLink(w, l, net), None) && CloseLink(w, l, net).rules == w.rules
  {
    hide Inv, CloseNodes;
    TickKeeps(w, None);
    CloseNodesKeeps(Tick(w), l, |w.links[l].trs|, net(w.tick), net);
    EmptyLinkGoes(CloseNodes(Tick(w), l, |w.links[l].trs|, net(w.tick), net), l);
  }

  /** A link whose tr_list is empty is the link of no transaction. */
  lemma EmptyLinkGoes(w: World, l: Addr)
    requires Inv(w, None) && l in w.links && w.links[l].trs == []
    ensures Inv(w.(links := w.links - {l}), None)
  {
    hide Registered, Batched, SameLink, Tree, Families, Handles, Columns, Cursors, Parameters, WorkOk, Tallied;
    var L := w.links - {l};
    forall t | t in w.trans ensures TransOnLink(L, w.trans[t], t, None) {
      assert TransOnLink(w.links, w.trans[t], t, None);
    }
    forall k | k in L ensures ListOk(L[k], k, w.trans, None) { assert ListOk(w.links[k], k, w.trans, None); }
  }

  // ------------------------------------------------------------ dropping a table

  lemma DropTableKeeps(w: World, t: Addr, net: Net)
    requires Inv(w, None) && t in w.trans
    ensures Inv(DropTable(w, t, net), None) && DropTable(w, t, net).rules == w.rules
  {
    hide Inv, AddWork, TryCommit, FreeHandle, DropDefault, UnlinkTrans;
    TickKeeps(w, None);
    if w.trans[t].handle.Some? {
      AddWorkKeeps(Tick(w), t, Ddl, NOTHING, None);
      AddWorkHandle(Tick(w), t, Ddl, NOTHING);
      var w1 := AddWork(Tick(w), t, Ddl, NOTHING);
      CommitKeeps(w1, t, net, None);
      var w2 := TryCommit(w1, t, net).1;
      FreeHandleKeeps(w2, t, None);
      FreedHandle(w2, t);
      var w3 := FreeHandle(w2, t);
      if w.trans[t].isDefault { DropDefaultKeeps(w3, t); } else { UnlinkKeeps(w3, t, None); }
    }
  }

  lemma AddWorkHandle(w: World, t: Addr, kind: Kind, effect: Effect)
    requires t in w.trans && w.trans[t].handle.Some?
    ensures var r := AddWork(w, t, kind, effect);
            t in r.trans && SamePlace(w.trans[t], r.trans[t]) && r.trans[t].handle.Some? && r.rules == w.rules
  {}

  lemma FreedHandle(w: World, t: Addr)
    requires t in w.trans
    ensures FreeHandle(w, t).trans[t].handle.None?
  {}

  lemma DropDefaultKeeps(w: World, t: Addr)
    requires Inv(w, None) && t in w.trans && w.trans[t].isDefault
    ensures Inv(DropDefault(w, t), None) && DropDefault(w, t).rules == w.rules
  {
    LinkLive(w, t, None);
    var l := w.trans[t].link.value;
    assert ListOk(w.links[l], l, w.trans, None);
    BlankOff(w, l, t);
    FreeDefault(w, l, t, Blank(w.links[l].trs, t), None);
  }

  lemma BlankOff(w: World, l: Addr, t: Addr)
    requires l in w.links && t in w.trans && ListOk(w.links[l], l, w.trans, None)
    ensures OffList(w, l, t, Blank(w.links[l].trs, t))
  {
    var trs := w.links[l].trs;
    BlankNode(trs, t);
    var r := Blank(trs, t);
    forall n: Option<Addr> | n.Some? && n != Some(t) ensures n in r <==> n in trs {
      if n in trs {
        var i :| 0 <= i < |trs| && trs[i] == n;
        assert r[i] == n;
      }
    }
  }

  // ------------------------------------------------------------ batches

  lemma NewBatchShape(T: map<Addr, Trans>, B: map<Addr, Batch>, b: Addr, t: Addr, q: Addr)
    requires Batched(T, B) && b !in B && t in T
    ensures Batched(T[t := T[t].(batches := [b] + T[t].batches)], B[b := Batch(Some(t), Some(t), q, true)])
  {
    var (R, C) := (T[t := T[t].(batches := [b] + T[t].batches)], B[b := Batch(Some(t), Some(t), q, true)]);
    forall c | c in C ensures BatchEnrolled(R, C[c], c) { if c != b { assert BatchEnrolled(T, B[c], c); } }
    forall u | u in R ensures BatchRegistryOk(R[u], u, C) {
      assert BatchRegistryOk(T[u], u, B);
      if u == t { ConsNoDup(T[t].batches, b); }
    }
  }

  /** A change of batch registries only. */
  lemma BatchesKeep(w: World, T: map<Addr, Trans>, B: map<Addr, Batch>, next: nat)
    requires Inv(w, None) && Batched(T, B) && T.Keys == w.trans.Keys && B.Keys <= w.batches.Keys + {w.next} &&
             next >= w.next
    requires forall t :: t in T ==> Same(T[t], w.trans[t].(batches := T[t].batches))
    requires next == w.next ==> B.Keys <= w.batches.Keys
    ensures Inv(w.(trans := T, batches := B, next := next), None)
  {
    hide Registered, Batched, Linked, SameLink, Tree, Families, Handles, Columns, Cursors, Parameters, WorkOk, Tallied;
    TalliedLike(w.trans, T, w.queries, w.queries, w.rules.strict, w.wrapped);
    BatchesRegistered(w.trans, T, w.queries);
    HandlesOnLinks(w.links, w.trans, None);
    LinkedLike(w.links, w.trans, T, None);
    SameLinkLike(w.trans, T, w.queries, w.queries, None);
    ParametersLike(w.trans, T);
    WorkLike(w.trans, T, w.durable, w.next, next);
  }

  lemma BatchesRegistered(T: map<Addr, Trans>, R: map<Addr, Trans>, Q: map<Addr, Query>)
    requires Registered(T, Q) && R.Keys == T.Keys && forall t :: t in T ==> R[t].queries == T[t].queries
    ensures Registered(R, Q)
  {
    forall q | q in Q ensures QueryEnrolled(R, Q[q], q) { assert QueryEnrolled(T, Q[q], q); }
    forall u | u in R ensures RegistryOk(R[u], u, Q) { assert RegistryOk(T[u], u, Q); }
  }

  lemma BatchCreateKeeps(w: World, q: Addr, explicit: Option<Addr>, net: Net)
    requires Inv(w, None) && q in w.queries && (explicit.Some? ==> explicit.value in w.trans)
    ensures Inv(BatchCreate(w, q, explicit, net), None) && BatchCreate(w, q, explicit, net).rules == w.rules
  {
    hide Inv, QueryOnLink, EnlistBatch;
    QueryLive(w, q, None);
    TickKeeps(w, None);
    var target := if explicit.Some? then explicit else w.queries[q].trans;
    if target.Some? { EnlistKeeps(Tick(w), q, target.value); }
  }

  lemma EnlistKeeps(w: World, q: Addr, t: Addr)
    requires Inv(w, None) && t in w.trans
    ensures Inv(EnlistBatch(w, q, t), None) && EnlistBatch(w, q, t).rules == w.rules
  {
    hide Inv;
    FreshAddress(w, None);
    BatchedOf(w);
    NewBatchShape(w.trans, w.batches, w.next, t, q);
    BatchesKeep(w, w.trans[t := w.trans[t].(batches := [w.next] + w.trans[t].batches)],
                w.batches[w.next := Batch(Some(t), Some(t), q, true)], w.next + 1);
  }

  lemma BatchedOf(w: World)
    requires Inv(w, None)
    ensures Batched(w.trans, w.batches)
    ensures forall b :: b in w.batches ==> BatchEnrolled(w.trans, w.batches[b], b)
  {}

  lemma WrapperGone(w: World, b: Addr)
    requires Inv(w, None) && b in w.batches
    ensures Inv(w.(batches := w.batches[b := w.batches[b].(wrapper := false)]), None)
  {
    BatchedOf(w);
    WrapperBatched(w.trans, w.batches, b);
    hide Shape, Batched;
    BatchesKeep(w, w.trans, w.batches[b := w.batches[b].(wrapper := false)], w.next);
  }

  lemma WrapperBatched(T: map<Addr, Trans>, B: map<Addr, Batch>, b: Addr)
    requires Batched(T, B) && b in B
    ensures Batched(T, B[b := B[b].(wrapper := false)])
  {
    var C := B[b := B[b].(wrapper := false)];
    forall c | c in C ensures BatchEnrolled(T, C[c], c) { assert BatchEnrolled(T, B[c], c); }
    forall u | u in T ensures BatchRegistryOk(T[u], u, C) { assert BatchRegistryOk(T[u], u, B); }
  }

  lemma BatchExecuteKeeps(w: World, b: Addr, net: Net)
    requires Inv(w, None) && b in w.batches
    ensures Inv(BatchExecute(w, b, net), None) && Inv(BatchCancel(w, b, net), None)
    ensures BatchExecute(w, b, net).rules == w.rules && BatchCancel(w, b, net).rules == w.rules
  {
    hide Inv, AddWork;
    BatchedOf(w);
    TickKeeps(w, None);
    WrapperGone(Tick(w), b);
    if w.batches[b].trans.Some? && w.trans[w.batches[b].trans.value].handle.Some? {
      AddWorkKeeps(Tick(w).(batches := w.batches[b := w.batches[b].(wrapper := false)]), w.batches[b].trans.value, Dml,
                   NOTHING, None);
      AddWorkIs(Tick(w).(batches := w.batches[b := w.batches[b].(wrapper := false)]), w.batches[b].trans.value, Dml,
                NOTHING);
    }
  }

  lemma RemoveBatchKeeps(w: World, b: Addr)
    requires Inv(w, None) && b in w.batches
    ensures Inv(RemoveBatch(w, b), None) && RemoveBatch(w, b).rules == w.rules
  {
    BatchedOf(w);
    RemoveBatchShape(w.trans, w.batches, b);
    hide Shape, Batched, Without;
    var t := w.batches[b].reg;
    if t.None? { BatchesKeep(w, w.trans, w.batches - {b}, w.next); }
    else {
      BatchesKeep(w, w.trans[t.value := w.trans[t.value].(batches := Without(w.trans[t.value].batches, b))],
                  w.batches - {b}, w.next);
    }
  }

  lemma RemoveBatchShape(T: map<Addr, Trans>, B: map<Addr, Batch>, b: Addr)
    requires Batched(T, B) && b in B
    ensures B[b].reg.None? ==> Batched(T, B - {b})
    ensures B[b].reg.Some? ==> B[b].reg.value in T
    ensures B[b].reg.Some? ==>
              var t := B[b].reg.value;
              Batched(T[t := T[t].(batches := Without(T[t].batches, b))], B - {b})
  {
    assert BatchEnrolled(T, B[b], b);
    var R := if B[b].reg.None? then T
             else var t := B[b].reg.value; T[t := T[t].(batches := Without(T[t].batches, b))];
    var C := B - {b};
    forall c | c in C ensures BatchEnrolled(R, C[c], c) {
      assert BatchEnrolled(T, B[c], c);
      if B[b].reg.Some? { WithoutIn(T[B[b].reg.value].batches, b, c); }
    }
    forall u | u in R ensures BatchRegistryOk(R[u], u, C) {
      assert BatchRegistryOk(T[u], u, B);
      if B[b].reg == Some(u) {
        WithoutNoDup(T[u].batches, b);
        forall c | c in R[u].batches ensures c in T[u].batches { WithoutIn(T[u].batches, b, c); }
      }
    }
  }

  lemma BatchFreeKeeps(w: World, b: Addr, last: bool, net: Net)
    requires Inv(w, None) && b in w.batches &&
             (last && w.batches[b].query in w.queries ==> Fetched(w, w.batches[b].query))
    ensures Inv(BatchFree(w, b, last, net), None) && BatchFree(w, b, last, net).rules == w.rules
  {
    hide Inv, FreeQuery, RemoveBatch;
    RemoveBatchKeeps(w, b);
    if last && w.batches[b].query in w.queries {
      FreeQueryKeeps(w, w.batches[b].query, net, None);
      RemoveBatchKeeps(FreeQuery(w, w.batches[b].query, net), b);
    }
  }

  // ------------------------------------------------------------ steps

  /** The duties of a caller. An execution reads the link of SET TRANSACTION, of DDL on a started transaction of
      the caller's and of a BLOB or array bound by value, and the bind buffer of a statement with parameters; a
      fetch of BLOB or array contents reads the link, and for an array the transaction.  All of these are bare
      pointers. */
  predicate Careful(w: World, op: Op) {
    match op
    case Execute(q, input) => q in w.queries ==> Executable(w, q, input)
    case FetchRow(q, contents) => q in w.queries && RowPossible(w.queries[q]) ==> Readable(w, q, contents)
    case _ => true
  }

  /** What makes a run strict: an open one-shot result is fetched before it is freed or has to change its
      transaction. */
  predicate FetchedFirst(w: World, op: Op) {
    match op
    case Execute(q, input) =>
      q in w.queries && input.args >= w.queries[q].inputs && w.queries[q].kind.Procedure? && Bind(w, q, input).0 ==>
        Settled(w, q, None)
    case Free(q) => q in w.queries ==> Fetched(w, q)
    case FreeBatch(b, last) => b in w.batches && last && w.batches[b].query in w.queries ==>
        Fetched(w, w.batches[b].query)
    case _ => true
  }

  /** What makes a run faithful to a transaction: the modifiers of the fbird_trans that makes it, if any does,
      leave the block its link has taken. */
  ghost predicate KeepsBlock(w: World, op: Op) {
    w.next in w.rules.faithful && op.StartLegacy? &&
    LegacyTrans.Asked(op.args, op.fallback, op.build, op.junk).Some? ==>
      LegacyTrans.Respected(op.args, op.build, op.junk)
  }

  lemma ResolveKeeps(w: World, on: Target, dflt: seq<Byte>, net: Net)
    requires Inv(w, None) && Live(w, on)
    ensures var (r, w1) := Resolve(w, on, dflt, net);
            && Inv(w1, None) && w1.rules == w.rules
            && (r.Some? ==> r.value.0 in w1.links && Fits(w1, r.value.0, !on.OnLink?, r.value.1, None))
  {
    hide Inv, DefTrans;
    match on {
      case OnTrans(t) => LinkLive(w, t, None);
      case OnBoth(_, _) =>
      case OnLink(l) => DefTransKeeps(w, l, dflt, net, None);
    }
  }

  lemma TargetsKeep(w: World, on: Target, kind: Kind, form: Form, input: Input, net: Net)
    requires Inv(w, None) && Live(w, on)
    ensures var w1 := RunTarget(w, on, kind, form, input, net); Inv(w1, None) && w1.rules == w.rules
    ensures var w1 := PrepareTarget(w, on, kind, form, input.dflt, net); Inv(w1, None) && w1.rules == w.rules
    ensures var w1 := DropTarget(w, on, input.dflt, net); Inv(w1, None) && w1.rules == w.rules
  {
    hide Inv, Resolve, RunOnce, Prepare, DropTable;
    ResolveKeeps(w, on, input.dflt, net);
    var (r, w1) := Resolve(w, on, input.dflt, net);
    if r.Some? {
      var (l, t) := r.value;
      RunOnceKeeps(w1, l, t, !on.OnLink?, kind, form, input, net, None);
      PrepareKeeps(w1, l, t, !on.OnLink?, kind, form, net, None);
      DropTableKeeps(w1, t, net);
    }
  }

  lemma StartOnKeeps(w: World, l: Addr, started: seq<Byte>, stored: seq<Byte>, net: Net)
    requires Inv(w, None) && l in w.links && (w.next in w.rules.faithful ==> started == stored)
    ensures Inv(StartOn(w, l, started, stored, net), None) && StartOn(w, l, started, stored, net).rules == w.rules
  {
    hide Inv;
    TickKeeps(w, None);
    NewTransKeeps(Tick(w), l, FreshTrans(l, false, stored, started == stored, Some(Handle(started, [], false))), None);
  }

  lemma LegacyKeeps(w: World, args: seq<LegacyTrans.Arg>, fallback: Addr, build: LegacyTrans.Builder,
                    junk: LegacyTrans.Buffer, net: Net)
    requires Inv(w, None) && Accepted(w, StartLegacy(args, fallback, build, junk))
    requires KeepsBlock(w, StartLegacy(args, fallback, build, junk))
    ensures var w1 := StartAsked(w, LegacyTrans.Asked(args, fallback, build, junk), net);
            Inv(w1, None) && w1.rules == w.rules
  {
    hide Inv, StartOn, LegacyTrans.Asked, LegacyTrans.Respected;
    var r := LegacyTrans.Asked(args, fallback, build, junk);
    if r.Some? {
      LegacyTrans.StoredIsStarted(args, fallback, build, junk);
      StartOnKeeps(w, r.value.l, r.value.started, r.value.stored, net);
    }
  }

  lemma NewLinkLinked(L: map<Addr, Link>, T: map<Addr, Trans>, l: Addr, persistent: bool)
    requires Linked(L, T, None) && l !in L
    ensures Linked(L[l := Link(persistent, [])], T, None)
  {
    var M := L[l := Link(persistent, [])];
    forall t | t in T ensures TransOnLink(M, T[t], t, None) { assert TransOnLink(L, T[t], t, None); }
    forall k | k in M ensures ListOk(M[k], k, T, None) { if k != l { assert ListOk(L[k], k, T, None); } }
  }

  lemma ConnectKeeps(w: World, persistent: bool)
    requires Inv(w, None)
    ensures Inv(w.(links := w.links[w.next := Link(persistent, [])], next := w.next + 1), None)
  {
    hide Registered, Batched, Linked, SameLink, Tree, Families, Handles, Columns, Cursors, Parameters, WorkOk, Tallied;
    FreshAddress(w, None);
    NewLinkLinked(w.links, w.trans, w.next, persistent);
    WorkLike(w.trans, w.trans, w.durable, w.next, w.next + 1);
  }

  lemma StepKeeps(w: World, op: Op, net: Net)
    requires Inv(w, None) && Careful(w, op) && FetchedFirst(w, op) && KeepsBlock(w, op)
    ensures Inv(Step(w, op, net), None) && Step(w, op, net).rules == w.rules
  {
    hide Inv, StartAsked, LegacyTrans.Asked, LegacyTrans.Respected, DefTrans, PrepareTarget, Exec, RunTarget,
         ExecuteAuto, Fetch, FreeQuery, BatchCreate, BatchExecute,
         BatchCancel, BatchFree, TransEnd, ObjectEnd, ReleaseLocks, FreeTrans, DropTarget, CloseLink;
    if Accepted(w, op) {
      match op {
        case Connect(persistent) => ConnectKeeps(w, persistent);
        case StartTrans(l, tpb) => StartOnKeeps(w, l, tpb, tpb, net);
        case StartLegacy(args, fallback, build, junk) => LegacyKeeps(w, args, fallback, build, junk, net);
        case TouchDefault(l, dflt) => DefTransKeeps(w, l, dflt, net, None);
        case PrepareStmt(on, kind, form, dflt) => TargetsKeep(w, on, kind, form, Input(0, false, true, dflt, NOTHING),
                                                              net);
        case Execute(q, input) => WholeExecKeeps(w, q, input, net, None);
        case Once(on, kind, form, input) => TargetsKeep(w, on, kind, form, input, net);
        case Auto(l, kind, form, input) => ExecuteAutoKeeps(w, l, kind, form, input, net);
        case FetchRow(q, contents) => FetchKeeps(w, q, contents, net, None);
        case Free(q) => FreeQueryKeeps(w, q, net, None);
        case NewBatch(q, explicit) => BatchCreateKeeps(w, q, explicit, net);
        case ExecuteBatch(b) => BatchExecuteKeeps(w, b, net);
        case CancelBatch(b) => BatchExecuteKeeps(w, b, net);
        case FreeBatch(b, last) => BatchFreeKeeps(w, b, last, net);
        case End(t, mode) => TransEndKeeps(w, t, mode, net, None);
        case EndObject(t, commit) => ObjectEndKeeps(w, t, commit, net);
        case Release(t) => ReleaseLocksKeeps(w, t, net);
        case DestroyTrans(t) => FreeTransKeeps(w, t, net, None);
        case Drop(on, dflt) => TargetsKeep(w, on, Ddl, Form(0, 0), Input(0, false, true, dflt, NOTHING), net);
        case Close(l) => CloseLinkKeeps(w, l, net);
      }
    }
  }

  lemma ObjectEndKeeps(w: World, t: Addr, commit: bool, net: Net)
    requires Inv(w, None) && t in w.trans
    ensures Inv(ObjectEnd(w, t, commit, net), None)
  {
    hide Inv, EndAndDrop;
    EndAndDropKeeps(w, t, true, commit, net, None);
  }

  lemma ReleaseLocksKeeps(w: World, t: Addr, net: Net)
    requires Inv(w, None) && t in w.trans
    ensures Inv(ReleaseLocks(w, t, net), None)
  {
    hide Inv, CommitRestart;
    if w.trans[t].handle.Some? { CommitRestartKeeps(w, t, net, None); }
  }

  /** An execution that is not careful reads freed memory or writes through NULL, whatever the server says. */
  lemma CarelessExecution(w: World, q: Addr, input: Input, net: Net)
    requires Inv(w, None) && q in w.queries && !Executable(w, q, input)
    ensures Exec(w, q, input, net).1.fault
  {
    hide Inv, CloseForReexec, Shut, EnsureDefault, DdlGate, RunStatement, Finish, Bind;
    ReexecKeeps(w, q, net, None);
    ReexecExecutable(w, q, input, net, None);
    var w1 := CloseForReexec(w, q, net);
    if !IsControl(w.queries[q].kind) {
      BindIs(w1, q, input, None);
      if Bindable(w1, q, input) { GateFaults(w1, q, input.dflt, net); }
      ShutFault(Fault(w1), q, net);
    }
  }

  lemma GateFaults(w: World, q: Addr, dflt: seq<Byte>, net: Net)
    requires q in w.queries && !GateSafe(w, q)
    ensures EnsureDefault(w, q, dflt, net) == (true, w) && DdlGate(w, q, net) == (false, Fault(w))
  {}

  /** A fault is never taken back. */
  lemma ShutFault(w: World, q: Addr, net: Net)
    requires w.fault
    ensures Shut(w, q, net).fault
  {
    hide SameLayout, OnlyTrans, OnlyFlags;
    if q in w.queries && w.queries[q].isOpen && w.queries[q].trans.Some? {
      CountFault(w, w.queries[q].trans.value, net);
    }
  }

  lemma CountFault(w: World, t: Addr, net: Net)
    requires w.fault
    ensures CountDown(w, t, net).fault
  {
    hide SameLayout, OnlyTrans, CommitRestart;
    if t in w.trans && w.trans[t].count > 0 {
      var w1 := SetT(w, t, w.trans[t].(count := w.trans[t].count - 1));
      RestartFault(SetT(w1, t, w1.trans[t].(retain := false)), t, net);
    }
  }

  lemma RestartFault(w: World, t: Addr, net: Net)
    requires w.fault
    ensures CommitRestart(w, t, net).1.fault
  {
    hide SameLayout, OnlyTrans;
  }

  /** A fetch that is not careful reads freed memory or NULL as soon as the server has a row. */
  lemma CarelessFetch(w: World, q: Addr, contents: seq<Column>)
    requires Inv(w, None) && q in w.queries && RowPossible(w.queries[q]) && !Readable(w, q, contents)
    ensures Fetch(w, q, contents, YES).fault
  {
    hide Inv, QueryOnLink, Exhaust;
    CursorKeeps(w, q, YES, None);
    QueryLive(w, q, None);
    assert FetchCursor(w, q, YES).0;
  }

  lemma StepFaults(w: World, op: Op)
    requires Inv(w, None) && Accepted(w, op) && !Careful(w, op)
    ensures Step(w, op, YES).fault
  {
    hide Inv, Executable, Readable, Exec, Fetch, RowPossible;
    match op {
      case Execute(q, input) => CarelessExecution(w, q, input, YES);
      case FetchRow(q, contents) => CarelessFetch(w, q, contents);
    }
  }

  /** A step keeps memory sound, whatever the server answers, if and only if its caller is careful. (In a run
      that promises nothing the other two requirements hold of every call.) */
  lemma StepSafe(w: World, op: Op)
    requires Inv(w, None) && FetchedFirst(w, op) && KeepsBlock(w, op)
    ensures (exists net :: Step(w, op, net).fault) <==> Accepted(w, op) && !Careful(w, op)
  {
    hide Step, Careful, Accepted;
    if !Accepted(w, op) { forall net ensures Step(w, op, net) == w { NotAccepted(w, op, net); } }
    else if Careful(w, op) { forall net ensures !Step(w, op, net).fault { StepKeeps(w, op, net); } }
    else { StepFaults(w, op); }
  }

  lemma NotAccepted(w: World, op: Op, net: Net)
    requires !Accepted(w, op)
    ensures Step(w, op, net) == w
  {}

  // ------------------------------------------------------------ runs

  ghost predicate CarefulRun(w: World, ops: seq<Op>, net: Net)
    decreases |ops|
  {
    ops != [] ==>
        Careful(w, ops[0]) && FetchedFirst(w, ops[0]) && KeepsBlock(w, ops[0]) &&
        CarefulRun(Step(w, ops[0], net), ops[1..], net)
  }

  lemma EmptyInv(rules: Rules)
    ensures Inv(Empty(rules), None)
  {}

  /** Lifetime safety over every run: no freed struct or statement handle is ever used, and every
      registry, list, tree and handle is exact between any two steps. */
  lemma {:induction false} RunsAreSafe(w: World, ops: seq<Op>, net: Net)
    requires Inv(w, None) && CarefulRun(w, ops, net)
    ensures Inv(Run(w, ops, net), None)
    decreases |ops|
  {
    if ops != [] {
      StepKeeps(w, ops[0], net);
      RunsAreSafe(Step(w, ops[0], net), ops[1..], net);
    }
  }
}
