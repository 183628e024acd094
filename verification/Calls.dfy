/** One-shot calls on an explicit transaction, and DDL that commits itself. */
module Calls {
  import opened State
  import opened Transactions
  import opened Queries
  import opened Steps
  import opened Invariant
  import opened TransactionsKeep
  import opened ExecKeeps
  import opened Effects
  import opened QueryCall
  import opened Executions
  import opened AutoCall

  // ------------------------------------------------------------ DDL that commits itself

  /** Executing DDL on a default transaction that is first on the list of its link: refused, it changes no transaction;
      accepted, it ends the transaction, and what was pending becomes durable together with the DDL, or is lost with it.
      One accepted commit is enough, and without an open cursor there is only one. */
  lemma DdlEndsItsTransaction(w: World, q: Addr, t: Addr, input: Input, net: Net)
    requires Inv(w, None) && Ready(w, q, t) && CommitsItself(w, q, t) && input.args >= w.queries[q].inputs
    requires Bind(w, q, input) == (true, w)
    ensures var ((reply, r), k) := (Exec(w, q, input, net), w.tick);
            if !net(k) then reply == Failure && Untouched(w, r)
            else
              && reply == Done && t in r.trans && r.trans[t].handle.None?
              && (r.durable == w.durable || r.durable == w.durable + (Pending(w.trans, t) + [w.next]))
              && (net(k + 1) ==> r.durable == w.durable + (Pending(w.trans, t) + [w.next]))
              && (!net(k + 1) && (!net(k + 2) || w.trans[t].count == 0) ==> r.durable == w.durable)
  {
    hide Inv, Bind, Exec, RunStatement, Finish, Shut, Untouched, AutoCommit, CommitsItself, SameLayout, OnlyTrans,
         OnlyFlags, CloseCursors;
    IsDdl(w, q, t);
    ExecIs(w, q, t, input, net);
    RunExactly(w, q, t, input.effect, net, None);
    RunKeeps(w, q, input.effect, net, None);
    var w1 := RunStatement(w, q, input.effect, net).1;
    RanPending(w, w1, q, t, input.effect, net(w.tick));
    if net(w.tick) {
      SameCommits(w, w1, q, t);
      DdlAutocommitIs(w1, q, t, net);
      FinishesDdl(w1, q, net);
      AutoCommitSettles(w1, t, true, net, None);
      AutoCommitKeeps(w1, t, true, net, None);
      var w2 := AutoCommit(w1, t, true, net);
      AutoCommitKeepsTrans(w1, t, true, net, q);
      ShutUntouched(w2, q, net, None);
      StillEnded(w2, Shut(w2, q, net), t);
      assert w.durable + [] == w.durable;
    } else {
      ShutUntouched(w1, q, net, None);
      UntouchedChain(w, w1, Shut(w1, q, net));
    }
  }

  lemma IsDdl(w: World, q: Addr, t: Addr)
    requires CommitsItself(w, q, t)
    ensures q in w.queries && w.queries[q].kind.Ddl? && !w.queries[q].explicit && w.queries[q].link in w.links
  {}

  lemma RanPending(w: World, r: World, q: Addr, t: Addr, effect: Effect, accepted: bool)
    requires q in w.queries && w.queries[q].kind.Ddl? && t in w.trans && w.trans[t].handle.Some? &&
             r.durable == w.durable
    requires var h := w.trans[t].handle.value;
             Same(r.trans, w.trans[t := w.trans[t].(handle :=
               Some(h.(pending := WorkAfter(Ddl, effect, h.pending, accepted, w.next))))])
    ensures t in r.trans && r.trans[t].handle.Some? && r.trans[t].count == w.trans[t].count
    ensures Pending(r.trans, t) == Pending(w.trans, t) + if accepted then [w.next] else []
    ensures !accepted ==> Untouched(w, r)
  {}

  lemma FinishesDdl(w: World, q: Addr, net: Net)
    requires q in w.queries && w.queries[q].kind.Ddl?
    ensures Finish(w, q, net) == (Done, Shut(DdlAutocommit(w, q, net), q, net))
  {
    hide DdlAutocommit, Shut;
  }

  lemma StillEnded(w: World, r: World, t: Addr)
    requires Untouched(w, r) && t in w.trans
    ensures t in r.trans && r.trans[t].handle == w.trans[t].handle && r.durable == w.durable
  {}

  // ------------------------------------------------------------ DDL behind the commit and restart

  /** DDL on an explicit transaction with open cursors, or with auto_ddl_commit: first everything pending is committed
      and the transaction starts again, without locks; the DDL is then the only work pending. If the commit is refused,
      the DDL runs all the same and adds to what was pending; if the start is refused, it does not run. */
  lemma GatedDdlExecutes(w: World, q: Addr, t: Addr, input: Input, net: Net)
    requires Inv(w, None) && Ready(w, q, t) && AsksLink(w, q) && w.queries[q].link in w.links
    requires w.rules.autoDdl || w.trans[t].count > 0
    requires input.args >= w.queries[q].inputs && Bind(w, q, input) == (true, w)
    ensures var ((reply, r), h, k) := (Exec(w, q, input, net), w.trans[t].handle.value, w.tick);
            && t in r.trans
            && reply == (if net(k + 1) && (net(k) ==> net(k + 2)) then Done else Failure)
            && r.durable == w.durable + (if net(k) then h.pending else [])
            && r.trans[t].handle ==
                 (if !net(k) then Some(h.(pending := h.pending + if net(k + 1) then [w.next] else []))
                  else if !net(k + 1) then None
                  else Some(Handle(w.trans[t].tpb, if net(k + 2) then [w.next] else [], false)))
  {
    hide Inv, Bind, Exec, DdlGate, RunStatement, Finish, Shut, Untouched, CommitsItself, SameLayout, OnlyTrans,
         OnlyFlags;
    GateExactly(w, q, t, net);
    DdlGateKeeps(w, q, net, None);
    GatedIs(w, q, t, input, net);
    var (go, w1) := DdlGate(w, q, net);
    GateLeaves(w, q, t, net);
    assert w.durable + [] == w.durable;
    assert [] + (if net(w.tick + 2) then [w.next] else []) == if net(w.tick + 2) then [w.next] else [];
    if !go {
      ShutUntouched(w1, q, net, None);
      StillEnded(w1, Shut(w1, q, net), t);
    } else {
      DdlRuns(w1, q, t, input.effect, net);
    }
  }

  lemma DdlRuns(w: World, q: Addr, t: Addr, effect: Effect, net: Net)
    requires Inv(w, None) && Ready(w, q, t) && w.queries[q].kind.Ddl? && w.queries[q].explicit
    ensures var (ran, w1) := RunStatement(w, q, effect, net);
            var ((reply, r), h) := (if ran then Finish(w1, q, net) else (Failure, Shut(w1, q, net)),
                                    w.trans[t].handle.value);
            && t in r.trans && reply == (if net(w.tick) then Done else Failure) && r.durable == w.durable
            && r.trans[t].handle == Some(h.(pending := h.pending + if net(w.tick) then [w.next] else []))
  {
    hide Inv, RunStatement, Finish, Shut, Untouched, CommitsItself, SameLayout, OnlyTrans, OnlyFlags;
    RunExactly(w, q, t, effect, net, None);
    RunKeeps(w, q, effect, net, None);
    var w1 := RunStatement(w, q, effect, net).1;
    RanPending(w, w1, q, t, effect, net(w.tick));
    NotItself(w1, q, t);
    FinishExactly(w1, q, t, net, None);
    ShutUntouched(w1, q, net, None);
    StillEnded(w1, Shut(w1, q, net), t);
    StillEnded(w1, Finish(w1, q, net).1, t);
  }

  lemma GatedIs(w: World, q: Addr, t: Addr, input: Input, net: Net)
    requires Ready(w, q, t) && w.queries[q].kind.Ddl? && input.args >= w.queries[q].inputs
    requires Bind(w, q, input) == (true, w)
    ensures Exec(w, q, input, net) ==
              var (go, w1) := DdlGate(w, q, net);
              if !go then (Failure, Shut(w1, q, net))
              else
                var (ran, w2) := RunStatement(w1, q, input.effect, net);
                if ran then Finish(w2, q, net) else (Failure, Shut(w2, q, net))
  {
    hide Bind, EnsureDefault, CloseForReexec, DdlGate, RunStatement, Finish, Shut;
    ReadyFirst(w, q, t, input.dflt, net);
  }

  lemma GateLeaves(w: World, q: Addr, t: Addr, net: Net)
    requires q in w.queries && t in w.trans
    ensures var r := DdlGate(w, q, net).1;
            Same(r.queries, w.queries) && Same(r.links, w.links) && r.next == w.next && r.rules == w.rules &&
            t in r.trans
  {
    hide OnlyTrans;
  }

  lemma NotItself(w: World, q: Addr, t: Addr)
    requires q in w.queries && w.queries[q].explicit
    ensures !CommitsItself(w, q, t)
  {}

  // ------------------------------------------------------------ one-shot calls on an explicit transaction

  /** No transaction has gained or lost a handle or work. */
  ghost predicate SameHandles(w: World, r: World) {
    r.durable == w.durable && forall u :: u in w.trans ==> u in r.trans && r.trans[u].handle == w.trans[u].handle
  }

  lemma UntouchedHandles(w: World, r: World)
    requires Untouched(w, r)
    ensures SameHandles(w, r)
  {}

  /** The end of such a call commits nothing, whatever the reply. */
  lemma ExplicitTail(w0: World, w: World, reply: Reply, q: Addr, l: Addr, t: Addr, net: Net)
    requires Inv(w, None) && Plain(w, t) && Executed(w0, reply, w, q) && Stays(w, reply, q, t) && l in w.links
    requires var qq := w0.queries[q]; qq.owns && qq.stmt.Some? && qq.parent.None? && qq.children == []
    ensures var r := if reply.Failure? then FreeQuery(w, q, net)
                     else Settle(QueryAutocommit(w, q, l, t, true, reply, net), q, reply, net);
            SameHandles(w, r)
  {
    hide Inv, FreeQuery, Transfer, CursorClosed, Untouched, SameHandles;
    assert QueryAutocommit(w, q, l, t, true, reply, net) == w;
    Unchanged(w);
    UntouchedHandles(w, w);
    FreeQuiet(w, q, net, t, None);
    UntouchedHandles(w, FreeQuery(w, q, net));
    if IsChild(w, reply, q) { HandedHandles(w, q, reply.q, t, net); }
  }

  lemma HandedHandles(w: World, q: Addr, c: Addr, t: Addr, net: Net)
    requires Inv(w, None) && q in w.queries && c in w.queries && c != q && w.queries[q].owns &&
             w.queries[q].parent.None?
    requires w.queries[q].children == [c] && w.queries[c].parent == Some(q) &&
             w.queries[q].trans == w.queries[c].trans == Some(t)
    ensures SameHandles(w, Settle(w, q, Result(c), net))
  {
    hide Inv, Settle;
    SettleHandsOver(w, q, c, t, net, None);
  }

  /** What the work of `t` is after a statement was prepared, bound and run on it, or was refused on the way; the k-th
      call to the server is the first. */
  function CallWork(kind: Kind, form: Form, input: Input, before: seq<Work>, net: Net, k: nat, x: Work): seq<Work> {
    if net(k) && net(k + 1) && form.columns <= MAX_COLUMNS && input.args >= form.inputs &&
        (form.inputs == 0 || input.bindOk)
    then WorkAfter(kind, input.effect, before, net(k + 2), x) else before
  }

  /** A call names an explicit transaction, alone or with a link. */
  predicate NamesBoth(w: World, on: Target, l: Addr, t: Addr) {
    on == OnBoth(l, t) || (on == OnTrans(t) && t in w.trans && w.trans[t].link == Some(l))
  }

  /** A statement just prepared on an explicit transaction. */
  ghost predicate Freshly(w: World, q: Addr, t: Addr) {
    && Ready(w, q, t) && Plain(w, t)
    && var qq := w.queries[q];
       && qq.explicit && qq.link in w.links && qq.parent.None? && qq.children == [] && qq.owns
       && qq.canBind == (qq.inputs > 0) && !IsControl(qq.kind)
       && (qq.kind.Ddl? ==> !w.rules.autoDdl && w.trans[t].count == 0)
  }

  /** What the execution leaves pending. */
  ghost predicate Leaves(w: World, r: World, t: Addr, work: seq<Work>) {
    && Elsewhere(w, r, t) && t in w.trans && t in r.trans && r.trans[t].retain == w.trans[t].retain
    && w.trans[t].handle.Some? && r.trans[t].handle == Some(w.trans[t].handle.value.(pending := work))
  }

  lemma ExplicitLeaves(w: World, q: Addr, t: Addr, input: Input, net: Net)
    requires Inv(w, None) && Freshly(w, q, t)
    ensures var ((reply, r), qq) := (Exec(w, q, input, net), w.queries[q]);
            && Stays(r, reply, q, t)
            && Leaves(w, r, t, if input.args >= qq.inputs && (qq.inputs == 0 || input.bindOk)
                 then WorkAfter(qq.kind, input.effect, w.trans[t].handle.value.pending, net(w.tick), w.next)
                 else w.trans[t].handle.value.pending)
  {
    hide Inv, Exec, Shut, Stays, Elsewhere, CommitsItself, Bind, WorkAfter, Untouched;
    NotItself(w, q, t);
    BindFreshly(w, q, t, input);
    if input.args < w.queries[q].inputs { TooFewArguments(w, q, t, input, net); }
    else if Bind(w, q, input).0 { ExecutedExactly(w, q, t, input, net, None); }
    else { Unbound(w, q, t, input, net); }
  }

  lemma BindFreshly(w: World, q: Addr, t: Addr, input: Input)
    requires Freshly(w, q, t)
    ensures Bind(w, q, input) == (w.queries[q].inputs == 0 || input.bindOk, w)
  {}

  lemma TooFewArguments(w: World, q: Addr, t: Addr, input: Input, net: Net)
    requires Freshly(w, q, t) && input.args < w.queries[q].inputs
    ensures Exec(w, q, input, net) == (Failure, w) && Stays(w, Failure, q, t)
    ensures Leaves(w, w, t, w.trans[t].handle.value.pending)
  {}

  lemma Unbound(w: World, q: Addr, t: Addr, input: Input, net: Net)
    requires Inv(w, None) && Freshly(w, q, t) && input.args >= w.queries[q].inputs && Bind(w, q, input) == (false, w)
    ensures var (reply, r) := Exec(w, q, input, net);
            Stays(r, reply, q, t) && Leaves(w, r, t, w.trans[t].handle.value.pending)
  {
    hide Inv, Bind, Shut;
    ShutUntouched(w, q, net, None);
    ShutStays(w, Failure, q, t, net, None);
  }

  lemma FreshlyExecutable(w: World, q: Addr, t: Addr, input: Input)
    requires Freshly(w, q, t)
    ensures Executable(w, q, input) && !Rehomes(w, q)
  {}

  lemma FreshlyPrepared(w: World, l: Addr, t: Addr, kind: Kind, form: Form, net: Net)
    requires Inv(w, None) && l in w.links && Plain(w, t) && w.trans[t].handle.Some? && !IsControl(kind)
    requires kind.Ddl? ==> !w.rules.autoDdl && w.trans[t].count == 0
    ensures var (q, r) := Prepare(w, l, t, true, kind, form, net);
            && (q.Some? <==> net(w.tick) && net(w.tick + 1) && form.columns <= MAX_COLUMNS)
            && (q.Some? ==>
                 && Freshly(r, q.value, t) && r.queries[q.value].kind == kind && FormOf(r.queries[q.value]) == form
                 && r.tick == w.tick + 2 && r.next == w.next + 2 && l in r.links && SameHandles(w, r))
  {
    hide Inv, Prepare;
    PreparesExactly(w, l, t, true, kind, form, net, None);
  }

  /** fbird_query and its relatives on an unmarked explicit transaction: nothing becomes durable, the transaction keeps
      its handle with what was pending and the work of the statement, and no other transaction is touched. */
  lemma ExplicitCallExactly(w: World, on: Target, l: Addr, t: Addr, kind: Kind, form: Form, input: Input, net: Net)
    requires Inv(w, None) && l in w.links && Plain(w, t) && NamesBoth(w, on, l, t) && w.trans[t].handle.Some?
    requires !IsControl(kind) && (kind.Ddl? ==> !w.rules.autoDdl && w.trans[t].count == 0)
    ensures var (r, h) := (RunTarget(w, on, kind, form, input, net), w.trans[t].handle.value);
            && r.durable == w.durable && t in r.trans
            && r.trans[t].handle ==
                 Some(h.(pending := CallWork(kind, form, input, h.pending, net, w.tick, w.next + 2)))
            && forall u :: u in w.trans && u != t ==> u in r.trans && r.trans[u].handle == w.trans[u].handle
  {
    hide Inv, RunOnce, CallWork;
    OnceExactly(w, l, t, kind, form, input, net);
    assert RunTarget(w, on, kind, form, input, net) == RunOnce(w, l, t, true, kind, form, input, net);
  }

  /** Nothing has become durable, `t` has this work pending, and no other transaction has changed. */
  ghost predicate Holds(w: World, r: World, t: Addr, work: seq<Work>) {
    && r.durable == w.durable && t in w.trans && t in r.trans && w.trans[t].handle.Some?
    && r.trans[t].handle == Some(w.trans[t].handle.value.(pending := work))
    && forall u :: u in w.trans && u != t ==> u in r.trans && r.trans[u].handle == w.trans[u].handle
  }

  lemma HoldsChain(w: World, r: World, s: World, t: Addr, work: seq<Work>)
    requires SameHandles(w, r) && Holds(r, s, t, work) && t in w.trans
    ensures Holds(w, s, t, work)
  {}

  lemma LeavesHolds(w: World, r: World, s: World, t: Addr, work: seq<Work>)
    requires Leaves(w, r, t, work) && SameHandles(r, s)
    ensures Holds(w, s, t, work)
  {}

  lemma OnceExactly(w: World, l: Addr, t: Addr, kind: Kind, form: Form, input: Input, net: Net)
    requires Inv(w, None) && l in w.links && Plain(w, t) && w.trans[t].handle.Some?
    requires !IsControl(kind) && (kind.Ddl? ==> !w.rules.autoDdl && w.trans[t].count == 0)
    ensures Holds(w, RunOnce(w, l, t, true, kind, form, input, net), t,
                  CallWork(kind, form, input, w.trans[t].handle.value.pending, net, w.tick, w.next + 2))
  {
    hide Inv, Prepare, Exec, FreeQuery, Settle, QueryAutocommit, Freshly, WorkAfter, Untouched, SameHandles, Holds;
    FreshlyPrepared(w, l, t, kind, form, net);
    PrepareKeeps(w, l, t, true, kind, form, net, None);
    UnpreparedUntouched(w, l, t, true, kind, form, net, None);
    var (q, w1) := Prepare(w, l, t, true, kind, form, net);
    if q.None? {
      UntouchedHandles(w, w1);
      NothingHolds(w, w1, t);
    } else {
      FreshlyRuns(w1, q.value, l, t, input, net);
      SamePending(w, w1, t);
      var r := RunOnce(w, l, t, true, kind, form, input, net);
      HoldsChain(w, w1, r, t, CallWork(kind, form, input, w.trans[t].handle.value.pending, net, w.tick, w.next + 2));
    }
  }

  lemma NothingHolds(w: World, r: World, t: Addr)
    requires SameHandles(w, r) && t in w.trans && w.trans[t].handle.Some?
    ensures Holds(w, r, t, w.trans[t].handle.value.pending)
  {}

  lemma SamePending(w: World, r: World, t: Addr)
    requires SameHandles(w, r) && t in w.trans
    ensures t in r.trans && r.trans[t].handle == w.trans[t].handle
  {}

  lemma FreshlyRuns(w: World, q: Addr, l: Addr, t: Addr, input: Input, net: Net)
    requires Inv(w, None) && Freshly(w, q, t) && l in w.links
    ensures var ((reply, w1), qq) := (Exec(w, q, input, net), w.queries[q]);
            var r := if reply.Failure? then FreeQuery(w1, q, net)
                     else Settle(QueryAutocommit(w1, q, l, t, true, reply, net), q, reply, net);
            Holds(w, r, t, if input.args >= qq.inputs && (qq.inputs == 0 || input.bindOk)
                  then WorkAfter(qq.kind, input.effect, w.trans[t].handle.value.pending, net(w.tick), w.next)
                  else w.trans[t].handle.value.pending)
  {
    hide Inv, Exec, FreeQuery, Settle, QueryAutocommit, Freshly, WorkAfter, Executed, Stays, SameHandles, Holds,
         Leaves;
    FreshlyIs(w, q, t);
    ExplicitLeaves(w, q, t, input, net);
    FreshlyExecutable(w, q, t, input);
    WholeExecKeeps(w, q, input, net, None);
    var (reply, w1) := Exec(w, q, input, net);
    var qq := w.queries[q];
    var work := if input.args >= qq.inputs && (qq.inputs == 0 || input.bindOk)
                then WorkAfter(qq.kind, input.effect, w.trans[t].handle.value.pending, net(w.tick), w.next)
                else w.trans[t].handle.value.pending;
    LinkStays(w, reply, w1, q, l);
    LeavesMark(w, w1, t, work);
    StillPlain(w, reply, w1, q, t);
    ExplicitTail(w, w1, reply, q, l, t, net);
    LeavesHolds(w, w1, if reply.Failure? then FreeQuery(w1, q, net)
                else Settle(QueryAutocommit(w1, q, l, t, true, reply, net), q, reply, net), t, work);
  }

  lemma LeavesMark(w: World, r: World, t: Addr, work: seq<Work>)
    requires Leaves(w, r, t, work) && Plain(w, t)
    ensures t in r.trans && !r.trans[t].retain
  {}

  lemma FreshlyIs(w: World, q: Addr, t: Addr)
    requires Freshly(w, q, t)
    ensures Ready(w, q, t) && Plain(w, t) && w.queries[q].explicit
    ensures var qq := w.queries[q]; qq.owns && qq.stmt.Some? && qq.parent.None? && qq.children == []
  {}

  lemma StillPlain(w: World, reply: Reply, r: World, q: Addr, t: Addr)
    requires Executed(w, reply, r, q) && Stays(r, reply, q, t) && w.queries[q].explicit && Inv(r, None)
    requires t in r.trans && !r.trans[t].retain
    ensures Plain(r, t)
  {
    hide Inv;
    QueryLive(r, q, None);
  }

  lemma LinkStays(w: World, reply: Reply, r: World, q: Addr, l: Addr)
    requires Executed(w, reply, r, q) && l in w.links
    ensures l in r.links
  {}
}
