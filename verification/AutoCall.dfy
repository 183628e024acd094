/** fbird_execute_auto, from the call to its return: what it makes durable, and that it leaves every other transaction
    alone. */
module AutoCall {
  import opened State
  import opened Transactions
  import opened Queries
  import opened Invariant
  import opened TransactionsKeep
  import opened StructureKeeps
  import opened LinksKeep
  import opened QueriesKeep
  import opened ExecKeeps
  import opened Outcomes
  import opened Effects
  import opened Executions
  import opened Starts

  // ------------------------------------------------------------ freeing a statement and its result

  /** An explicit or unlisted transaction without the mark: nothing that is freed on it commits. */
  ghost predicate Plain(w: World, t: Addr) { t in w.trans && !w.trans[t].isDefault && !w.trans[t].retain }

  lemma DownQuiet(w: World, t: Addr, net: Net)
    requires Plain(w, t)
    ensures var r := CountDown(w, t, net); Untouched(w, r) && Plain(r, t) && r.tick == w.tick
  {
    hide CommitRestart, SameLayout, OnlyTrans;
  }

  lemma ShutQuiet(w: World, q: Addr, net: Net, t: Addr)
    requires Plain(w, t) && q in w.queries && w.queries[q].trans == Some(t)
    ensures var r := Shut(w, q, net);
            && Untouched(w, r) && Plain(r, t) && r.tick == w.tick
            && q in r.queries && r.queries[q].trans == Some(t)
  {
    hide CountDown, SameLayout;
    DownQuiet(w, t, net);
  }

  lemma CloseQuiet(w: World, q: Addr, mirror: bool, net: Net, t: Addr)
    requires Plain(w, t) && q in w.queries && w.queries[q].trans == Some(t) && (mirror ==> w.queries[q].parent.None?)
    ensures var r := CloseForFree(w, q, mirror, net);
            && Untouched(w, r) && Plain(r, t) && r.tick == w.tick
            && q in r.queries && r.queries[q].trans == Some(t)
  {
    hide Shut, Untouched, SameLayout, OnlyFlags, Plain, UseStmt;
    Unchanged(w);
    if w.queries[q].stmt.Some? {
      var w0 := UseStmt(w, w.queries[q].stmt.value);
      UsedIs(w, w.queries[q].stmt.value);
      SameTrans(w, w0);
      SamePlain(w, w0, t);
      ShutQuiet(w0, q, net, t);
      UntouchedChain(w, w0, Shut(w0, q, net));
    }
  }

  lemma UsedIs(w: World, s: Addr)
    ensures var r := UseStmt(w, s);
            && Same(r.trans, w.trans) && Same(r.queries, w.queries) && r.durable == w.durable && r.tick == w.tick
  {}

  lemma SameTrans(w: World, r: World)
    requires r.trans == w.trans && r.durable == w.durable
    ensures Untouched(w, r)
  {}

  lemma CommitQuiet(w: World, q: Addr, had: bool, net: Net, t: Addr)
    requires Plain(w, t) && q in w.queries && w.queries[q].trans == Some(t)
    ensures var r := CommitOnFree(w, q, had, net);
            Untouched(w, r) && Plain(r, t) && r.queries == w.queries && (!had ==> r == w)
  {
    hide EndAndDrop, FreeHandle;
  }

  lemma LeaveQuiet(w: World, q: Addr, t: Addr)
    requires Plain(w, t) && q in w.queries
    ensures var r := RemoveQuery(w, q); Untouched(w, r) && Plain(r, t) && r.tick == w.tick
  {
    hide Pruned, Without;
  }

  /** One query: its cursor is closed without a release, and nothing is committed. */
  lemma LeafQuiet(w: World, q: Addr, mirror: bool, net: Net, t: Addr)
    requires Plain(w, t) && q in w.queries && w.queries[q].trans == Some(t) && (mirror ==> w.queries[q].parent.None?)
    ensures var r := DestroyLeaf(w, q, mirror, net);
            Untouched(w, r) && Plain(r, t) && (!w.queries[q].isOpen ==> r.tick == w.tick)
  {
    hide CloseForFree, DropStmt, CommitOnFree, RemoveQuery, ReleaseIfIdle, Untouched, Plain;
    var had := w.queries[q].isOpen;
    CloseQuiet(w, q, mirror, net, t);
    var w0 := CloseForFree(w, q, mirror, net);
    DropTrans(w0, q);
    var w1 := DropStmt(w0, q);
    SameTrans(w0, w1);
    SamePlain(w0, w1, t);
    CommitQuiet(w1, q, had, net, t);
    var w2 := CommitOnFree(w1, q, had, net);
    LeaveQuiet(w2, q, t);
    PlainIs(RemoveQuery(w2, q), t);
    Unmarked(RemoveQuery(w2, q), t, net);
    UntouchedChain(w, w0, w1);
    UntouchedChain(w, w1, w2);
    UntouchedChain(w, w2, RemoveQuery(w2, q));
  }

  lemma PlainIs(w: World, t: Addr)
    requires Plain(w, t)
    ensures t in w.trans && !w.trans[t].retain
  {}

  lemma SamePlain(w: World, r: World, t: Addr)
    requires Plain(w, t) && r.trans == w.trans
    ensures Plain(r, t)
  {}

  /** A statement, and the result below it if there is one. */
  lemma FreeQuiet(w: World, q: Addr, net: Net, t: Addr, aux: Option<Addr>)
    requires Inv(w, aux) && Plain(w, t) && Fetched(w, q) && w.queries[q].trans == Some(t) && w.queries[q].parent.None?
    requires w.queries[q].children != [] ==>
               var c := w.queries[q].children[0];
               w.queries[q].children == [c] && c in w.queries && w.queries[c].trans == Some(t) &&
               w.queries[c].children == []
    ensures var r := FreeQuery(w, q, net);
            && Untouched(w, r) && Plain(r, t)
            && (w.queries[q].children == [] && !w.queries[q].isOpen ==> r.tick == w.tick)
  {
    hide Inv, DestroyLeaf, Untouched, Plain;
    FreshAddress(w, aux);
    FreeAllKeeps(w, q, w.next, net, aux);
    Unchanged(w);
    var children := w.queries[q].children;
    var w1 := FreeAll(w, q, children, w.next, net);
    if children != [] {
      var c := children[0];
      ChildLive(w, q, c, aux);
      assert c < w.next;
      OneLeaf(w, q, c, w.next, net);
      LeafQuiet(w, c, false, net, t);
    }
    LeafQuiet(w1, q, true, net, t);
    UntouchedChain(w, w1, FreeQuery(w, q, net));
  }

  lemma OneLeaf(w: World, q: Addr, c: Addr, end: nat, net: Net)
    requires c in w.queries && w.queries[c].children == [] && q < c < end
    ensures FreeAll(w, q, [c], end, net) == DestroyLeaf(w, c, false, net)
  {
    hide DestroyLeaf;
    assert FreeAll(w, c, [], end, net) == w;
    var r := DestroyLeaf(w, c, false, net);
    assert FreeTree(w, c, false, end, net) == r;
    assert [c][1..] == [];
    assert FreeAll(r, q, [], end, net) == r;
  }

  // ------------------------------------------------------------ the execution

  /** Whether the call commits a statement once it is prepared: it has no result, the server accepts it, tells how many
      rows it affected where that is asked, and accepts the commit. The k-th call to the server executes it. */
  predicate RunCommits(kind: Kind, form: Form, input: Input, net: Net, k: nat) {
    && input.args >= form.inputs && (form.inputs == 0 || input.bindOk)
    && (kind.Ddl? || (OneShot(kind) && form.columns == 0))
    && net(k) && net(k + 1) && (OneShot(kind) ==> net(k + 2))
  }

  /** A statement just prepared on the transaction `t` of the call, which has nothing pending. */
  ghost predicate Alone(w: World, q: Addr, t: Addr) {
    && Ready(w, q, t) && Plain(w, t) && w.trans[t].handle.value.pending == []
    && var qq := w.queries[q];
       && !qq.explicit && qq.link in w.links && qq.parent.None? && qq.children == [] && qq.owns
       && qq.canBind == (qq.inputs > 0)
  }

  function FormOf(qq: Query): Form { Form(qq.columns, qq.inputs) }

  /** What the end of the call will commit. */
  ghost predicate Yields(w: World, reply: Reply, r: World, q: Addr, t: Addr, input: Input, net: Net) {
    && q in w.queries && Elsewhere(w, r, t) && Stays(r, reply, q, t) && t in r.trans && !r.trans[t].retain
    && (if reply.Done? && net(r.tick) then Pending(r.trans, t) else []) ==
       (if RunCommits(w.queries[q].kind, FormOf(w.queries[q]), input, net, w.tick) then [w.next] else [])
  }

  lemma AloneIs(w: World, q: Addr, t: Addr)
    requires Alone(w, q, t)
    ensures Ready(w, q, t) && Plain(w, t)
  {}

  /** The transaction of the call is on no tr_list. */
  lemma OffList(w: World, q: Addr, t: Addr)
    requires Inv(w, Some(t)) && q in w.queries
    ensures !CommitsItself(w, q, t)
  {
    if w.queries[q].link in w.links { assert ListOk(w.links[w.queries[q].link], w.queries[q].link, w.trans, Some(t)); }
  }

  lemma BindAlone(w: World, q: Addr, t: Addr, input: Input)
    requires Alone(w, q, t)
    ensures Bind(w, q, input) == (w.queries[q].inputs == 0 || input.bindOk, w)
  {}

  lemma RefusedYields(w: World, q: Addr, t: Addr, input: Input, net: Net)
    requires Inv(w, Some(t)) && Alone(w, q, t) && input.args < w.queries[q].inputs
    ensures var (reply, r) := Exec(w, q, input, net); Yields(w, reply, r, q, t, input, net)
  {
    hide Inv;
  }

  lemma ControlYields(w: World, q: Addr, t: Addr, input: Input, net: Net)
    requires Inv(w, Some(t)) && Alone(w, q, t) && input.args >= w.queries[q].inputs && IsControl(w.queries[q].kind)
    ensures var (reply, r) := Exec(w, q, input, net); Yields(w, reply, r, q, t, input, net)
  {
    hide Inv, Exec, SetTransaction;
    if w.queries[q].kind.SetTrans? { SetYields(w, q, t, input, net); }
    else { SqlEnds(w, q, t, input, net, Some(t)); }
  }

  lemma SetYields(w: World, q: Addr, t: Addr, input: Input, net: Net)
    requires Inv(w, Some(t)) && Alone(w, q, t) && input.args >= w.queries[q].inputs && w.queries[q].kind.SetTrans?
    ensures var (reply, r) := Exec(w, q, input, net); Yields(w, reply, r, q, t, input, net)
  {
    hide Inv, Exec, Begins, Stays;
    SetTransactionStarts(w, q, t, input, net, Some(t));
  }

  lemma PlainYields(w: World, q: Addr, t: Addr, input: Input, net: Net)
    requires Inv(w, Some(t)) && Alone(w, q, t) && input.args >= w.queries[q].inputs && !IsControl(w.queries[q].kind)
    ensures var (reply, r) := Exec(w, q, input, net); Yields(w, reply, r, q, t, input, net)
  {
    hide Inv, Exec, Stays, Elsewhere, CommitsItself, Bind;
    OffList(w, q, t);
    BindAlone(w, q, t, input);
    if Bind(w, q, input).0 { ExecutedExactly(w, q, t, input, net, Some(t)); }
    else { UnboundYields(w, q, t, input, net); }
  }

  lemma UnboundYields(w: World, q: Addr, t: Addr, input: Input, net: Net)
    requires Inv(w, Some(t)) && Alone(w, q, t) && input.args >= w.queries[q].inputs && !IsControl(w.queries[q].kind)
    requires Bind(w, q, input) == (false, w) && w.queries[q].inputs > 0 && !input.bindOk
    ensures var (reply, r) := Exec(w, q, input, net); Yields(w, reply, r, q, t, input, net)
  {
    hide Inv, Bind, Shut;
    ShutUntouched(w, q, net, Some(t));
    ShutStays(w, Failure, q, t, net, Some(t));
  }

  // ------------------------------------------------------------ the whole call

  /** Durable work grows by `gain`, and every other transaction keeps its handle, its work and its mark. */
  ghost predicate Gains(w: World, r: World, t: Addr, gain: seq<Work>) {
    && r.durable == w.durable + gain
    && forall u :: u in w.trans && u != t ==> u in r.trans && Alike(w.trans[u], r.trans[u])
  }

  lemma AloneExecutable(w: World, q: Addr, t: Addr, input: Input)
    requires Alone(w, q, t)
    ensures Executable(w, q, input) && !Rehomes(w, q)
  {}

  lemma ExecYields(w: World, q: Addr, t: Addr, input: Input, net: Net)
    requires Inv(w, Some(t)) && Alone(w, q, t)
    ensures var (reply, r) := Exec(w, q, input, net); Yields(w, reply, r, q, t, input, net)
  {
    hide Inv, Exec, Alone, Yields;
    assert q in w.queries by { AloneIs(w, q, t); }
    if input.args < w.queries[q].inputs { RefusedYields(w, q, t, input, net); }
    else if IsControl(w.queries[q].kind) { ControlYields(w, q, t, input, net); }
    else { PlainYields(w, q, t, input, net); }
  }

  /** Ending and freeing the transaction of the call. */
  lemma EndGains(w: World, t: Addr, commit: bool, net: Net)
    requires Inv(w, Some(t)) && t in w.trans
    ensures Gains(w, DetachAndFree(EndAndDrop(w, t, true, commit, net), t), t,
                  if commit && net(w.tick) then Pending(w.trans, t) else [])
  {
    hide Inv, EndAndDrop, DetachAndFree, SameLayout, OnlyTrans, Put, RegistryOk, BatchRegistryOk;
    DropPut(w, t, true, commit, net);
    var gain := if commit && net(w.tick) then Pending(w.trans, t) else [];
    var tick := w.tick + NodeCalls(w.trans, Some(t), true);
    PutIs(w, t, w.trans[t].(handle := None), w.durable + gain, tick);
    PutBatches(w, t, w.trans[t].(handle := None), w.durable + gain, tick);
    RegistriesOf(w, t, Some(t));
    DetachGains(w, EndAndDrop(w, t, true, commit, net), t);
  }

  lemma PutBatches(w: World, t: Addr, tr: Trans, durable: seq<Work>, tick: nat)
    ensures Same(Put(w, t, tr, durable, tick).batches, w.batches)
  {}

  lemma DetachGains(w: World, r: World, t: Addr)
    requires t in w.trans && t in r.trans && Same(r.queries, w.queries) && Same(r.batches, w.batches)
    requires r.trans[t].queries == w.trans[t].queries && r.trans[t].batches == w.trans[t].batches
    requires RegistryOk(w.trans[t], t, w.queries) && BatchRegistryOk(w.trans[t], t, w.batches)
    requires forall u :: u in w.trans && u != t ==> u in r.trans && Alike(w.trans[u], r.trans[u])
    ensures var s := DetachAndFree(r, t);
            s.durable == r.durable && forall u :: u in w.trans && u != t ==>
                u in s.trans && Alike(w.trans[u], s.trans[u])
  {
    DetachIs(r, t);
    hide DetachAndFree;
  }

  lemma GainsChain(w: World, r: World, f: World, s: World, t: Addr, gain: seq<Work>)
    requires Elsewhere(w, r, t) && Untouched(r, f) && Gains(f, s, t, gain)
    ensures Gains(w, s, t, gain)
  {}

  lemma NothingChanged(r: World, f: World, t: Addr)
    requires Untouched(r, f) && t in r.trans && t in f.trans
    ensures Pending(f.trans, t) == Pending(r.trans, t)
  {}

  /** The statement, its result if any, and the transaction of the call go; the work is committed or lost. */
  lemma EndsGain(w: World, reply: Reply, r: World, q: Addr, t: Addr, input: Input, net: Net)
    requires Inv(r, Some(t)) && Alone(w, q, t) && Yields(w, reply, r, q, t, input, net) && Executed(w, reply, r, q)
    ensures var s := DetachAndFree(EndAndDrop(FreeQuery(r, q, net), t, true, reply.Done?, net), t);
            Gains(w, s, t, if RunCommits(w.queries[q].kind, FormOf(w.queries[q]), input, net, w.tick) then [w.next]
            else [])
  {
    hide Inv, FreeQuery, EndAndDrop, DetachAndFree, Untouched, Gains;
    AuxNotDefault(r, t);
    FreeQuiet(r, q, net, t, Some(t));
    FreeQueryKeeps(r, q, net, Some(t));
    var f := FreeQuery(r, q, net);
    EndGains(f, t, reply.Done?, net);
    NothingChanged(r, f, t);
    GainsChain(w, r, f, DetachAndFree(EndAndDrop(f, t, true, reply.Done?, net), t), t,
               if reply.Done? && net(f.tick) then Pending(f.trans, t) else []);
  }

  /** From the execution on. */
  lemma AloneGains(w: World, q: Addr, t: Addr, input: Input, net: Net)
    requires Inv(w, Some(t)) && Alone(w, q, t)
    ensures var (reply, w2) := Exec(w, q, input, net);
            var r := DetachAndFree(EndAndDrop(FreeQuery(w2, q, net), t, true, reply.Done?, net), t);
            Gains(w, r, t, if RunCommits(w.queries[q].kind, FormOf(w.queries[q]), input, net, w.tick) then [w.next]
            else [])
  {
    hide Inv, Exec, FreeQuery, EndAndDrop, DetachAndFree, Gains, Alone, Yields, Executed;
    AloneExecutable(w, q, t, input);
    AloneIs(w, q, t);
    ExecYields(w, q, t, input, net);
    WholeExecKeeps(w, q, input, net, Some(t));
    EndsGain(w, Exec(w, q, input, net).0, Exec(w, q, input, net).1, q, t, input, net);
  }

  /** The state in which the transaction of the call has been started. */
  function Begun(w: World, l: Addr): World {
    Tick(w).(trans := w.trans[w.next := FreshTrans(l, false, [], true, Some(Handle([], [], false)))],
             next := w.next + 1)
  }

  lemma BegunIs(w: World, l: Addr)
    requires Inv(w, None) && l in w.links
    ensures var r := Begun(w, l);
            && Inv(r, Some(w.next)) && l in r.links && Fits(r, l, false, w.next, Some(w.next)) && Plain(r, w.next)
            && r.trans[w.next].handle == Some(Handle([], [], false)) && Elsewhere(w, r, w.next) && w.next !in w.trans
            && r.tick == w.tick + 1 && r.next == w.next + 1
  {
    hide Inv;
    FreshAddress(w, None);
    TickKeeps(w, None);
    AuxKeeps(Tick(w), l, w.next, FreshTrans(l, false, [], true, Some(Handle([], [], false))));
  }

  /** Whether a call commits: its transaction starts, its statement is prepared and described, has no more columns than
      it may have and no result, is accepted, and the commit is accepted. The k-th call to the server is the first. */
  predicate AutoCommits(kind: Kind, form: Form, input: Input, net: Net, k: nat) {
    net(k) && net(k + 1) && net(k + 2) && form.columns <= MAX_COLUMNS && RunCommits(kind, form, input, net, k + 3)
  }

  lemma PreparedAlone(w: World, l: Addr, t: Addr, kind: Kind, form: Form, net: Net)
    requires Inv(w, Some(t)) && l in w.links && Fits(w, l, false, t, Some(t)) && Plain(w, t)
    requires w.trans[t].handle == Some(Handle([], [], false))
    ensures var (q, r) := Prepare(w, l, t, false, kind, form, net);
            && (q.Some? <==> net(w.tick) && net(w.tick + 1) && form.columns <= MAX_COLUMNS)
            && (q.Some? ==>
                 && Alone(r, q.value, t) && r.queries[q.value].kind == kind && FormOf(r.queries[q.value]) == form
                 && Elsewhere(w, r, t) && r.tick == w.tick + 2 && r.next == w.next + 2)
  {
    hide Inv, Prepare;
    PreparesExactly(w, l, t, false, kind, form, net, Some(t));
  }

  lemma ElsewhereGains(w: World, r: World, s: World, t: Addr, gain: seq<Work>)
    requires Elsewhere(w, r, t) && Gains(r, s, t, gain)
    ensures Gains(w, s, t, gain)
  {}

  /** The work of the statement becomes durable exactly when the call commits; nothing else ever does, and every
      transaction there was keeps its handle, its work and its mark. */
  lemma ExecuteAutoExactly(w: World, l: Addr, kind: Kind, form: Form, input: Input, net: Net)
    requires Inv(w, None) && l in w.links
    ensures var r := ExecuteAuto(w, l, kind, form, input, net);
            && r.durable == w.durable + (if AutoCommits(kind, form, input, net, w.tick) then [w.next + 3] else [])
            && forall u :: u in w.trans ==> u in r.trans && Alike(w.trans[u], r.trans[u])
  {
    hide Inv, Prepare, Exec, FreeQuery, DetachAndFree, EndAndDrop, Alone, Plain, RunCommits, Elsewhere, Gains;
    if !net(w.tick) { assert w.durable + [] == w.durable; return; }
    BegunIs(w, l);
    var (t, w0) := (w.next, Begun(w, l));
    PreparedAlone(w0, l, t, kind, form, net);
    PrepareKeeps(w0, l, t, false, kind, form, net, Some(t));
    var (q, w1) := Prepare(w0, l, t, false, kind, form, net);
    var r := ExecuteAuto(w, l, kind, form, input, net);
    if q.Some? {
      AloneGains(w1, q.value, t, input, net);
      var gain := if RunCommits(kind, form, input, net, w1.tick) then [w1.next] else [];
      ElsewhereGains(w0, w1, r, t, gain);
      ElsewhereGains(w, w0, r, t, gain);
      AllAlike(w, r, t, gain);
    } else {
      UnpreparedGains(w0, l, t, kind, form, net);
      ElsewhereGains(w, w0, r, t, []);
      AllAlike(w, r, t, []);
    }
  }

  lemma AllAlike(w: World, r: World, t: Addr, gain: seq<Work>)
    requires Gains(w, r, t, gain) && t !in w.trans
    ensures r.durable == w.durable + gain && forall u :: u in w.trans ==> u in r.trans && Alike(w.trans[u], r.trans[u])
  {}

  /** A statement that is not prepared commits nothing. */
  lemma UnpreparedGains(w: World, l: Addr, t: Addr, kind: Kind, form: Form, net: Net)
    requires Inv(w, Some(t)) && l in w.links && Fits(w, l, false, t, Some(t)) && Plain(w, t)
    ensures var (q, r) := Prepare(w, l, t, false, kind, form, net);
            q.None? ==> Gains(w, DetachAndFree(EndAndDrop(r, t, true, false, net), t), t, [])
  {
    hide Inv, Prepare, DetachAndFree, EndAndDrop, Untouched, Gains;
    PrepareKeeps(w, l, t, false, kind, form, net, Some(t));
    UnpreparedUntouched(w, l, t, false, kind, form, net, Some(t));
    var (q, r) := Prepare(w, l, t, false, kind, form, net);
    if q.None? {
      StaysLive(w, r, t);
      EndGains(r, t, false, net);
      UntouchedGains(w, r, DetachAndFree(EndAndDrop(r, t, true, false, net), t), t);
    }
  }

  lemma StaysLive(w: World, r: World, t: Addr)
    requires Untouched(w, r) && t in w.trans
    ensures t in r.trans
  {}

  lemma UntouchedGains(w: World, r: World, s: World, t: Addr)
    requires Untouched(w, r) && Gains(r, s, t, [])
    ensures Gains(w, s, t, [])
  {}
}
