/** What each call computes, answer by answer: which row is delivered, which reply an execution gives, what its work
    becomes, and what stays as it was. */
module Executions {
  import opened State
  import opened Transactions
  import opened Queries
  import opened Steps
  import opened Invariant
  import opened TransactionsKeep
  import opened StructureKeeps
  import opened LinksKeep
  import opened QueriesKeep
  import opened ExecKeeps
  import opened Outcomes
  import opened Effects

  /** Two transactions with the same handle, work and mark. */
  ghost predicate Alike(a: Trans, b: Trans) { b.handle == a.handle && b.retain == a.retain }

  /** Nothing has become durable, and no transaction but `t` has gained or lost a handle, work or a mark. */
  ghost predicate Elsewhere(w: World, r: World, t: Addr) {
    r.durable == w.durable && forall u :: u in w.trans && u != t ==> u in r.trans && Alike(w.trans[u], r.trans[u])
  }

  lemma ElsewhereChain(w: World, r: World, s: World, t: Addr)
    requires Elsewhere(w, r, t) && Elsewhere(r, s, t) && w.trans.Keys <= r.trans.Keys
    ensures Elsewhere(w, s, t)
  {}

  /** No transaction at all has. */
  ghost predicate Untouched(w: World, r: World) {
    r.durable == w.durable && forall u :: u in w.trans ==> u in r.trans && Alike(w.trans[u], r.trans[u])
  }

  lemma ShutUntouched(w: World, q: Addr, net: Net, aux: Option<Addr>)
    requires Inv(w, aux) && q in w.queries
    ensures var r := Shut(w, q, net); Untouched(w, r) && r.tick == w.tick && r.trans.Keys == w.trans.Keys
  {
    hide Inv, CursorClosed, SameLayout, OnlyFlags;
    ClosingCommitsNothing(w, q, net, aux);
    ClosedThere(w, q, net);
  }

  lemma ClosedThere(w: World, q: Addr, net: Net)
    ensures CursorClosed(w, q, net).trans.Keys == w.trans.Keys
  {
    hide OnlyFlags;
  }

  // ------------------------------------------------------------ fetching

  /** An open result of a SELECT, with more rows to come as far as is known. */
  ghost predicate Fetching(w: World, q: Addr) {
    q in w.queries &&
    var qq := w.queries[q];
    qq.isOpen && qq.more && qq.columns > 0 && qq.stmt.Some? && !Buffered(qq) && qq.trans.Some?
  }

  /** A row is delivered exactly when the cursor is open and the server has a row, and then nothing changes;
      otherwise the result is closed and out of the open queries of its transaction. */
  lemma FetchExactly(w: World, q: Addr, net: Net, t: Addr, aux: Option<Addr>)
    requires Inv(w, aux) && Fetching(w, q) && w.queries[q].trans == Some(t)
    ensures var (row, r) := FetchCursor(w, q, net);
            && (row <==> net(w.tick) && net(w.tick + 1))
            && (row ==> r == w.(tick := w.tick + 2))
            && (!row ==>
                 && q in r.queries && !r.queries[q].isOpen && !r.queries[q].more && Untouched(w, r)
                 && OpenOn(r.queries, t) == OpenOn(w.queries, t) - {q} && r.tick == w.tick + 2)
  {
    hide Inv, CursorClosed, SameLayout, OnlyFlags, QueryOnLink;
    QueryLive(w, q, aux);
    TickKeeps(w, aux);
    TickKeeps(Tick(w), aux);
    MoreKeeps(Tick(Tick(w)), q, false, aux);
    CloseNeverReleases(SetMore(Tick(Tick(w)), q, false), q, net, aux);
    ClosingCommitsNothing(SetMore(Tick(Tick(w)), q, false), q, net, aux);
  }

  /** The rows of the next `n` fetches. */
  function Fetches(w: World, q: Addr, n: nat, net: Net): (seq<bool>, World)
    decreases n
  {
    if n == 0 then ([], w)
    else
      var (row, w1) := FetchCursor(w, q, net);
      var (rows, r) := Fetches(w1, q, n - 1, net);
      ([row] + rows, r)
  }

  lemma {:induction false} FetchesRun(w: World, q: Addr, n: nat, net: Net)
    requires q in w.queries
    ensures Fetches(w, q, n, net).1 == Run(w, seq(n, i => FetchRow(q, [])), net)
    decreases n
  {
    hide FetchCursor;
    if n > 0 {
      var ops := seq(n, i => FetchRow(q, []));
      assert ops[0] == FetchRow(q, []) && ops[1..] == seq(n - 1, i => FetchRow(q, []));
      FetchIs(w, q, net);
      FetchesRun(FetchCursor(w, q, net).1, q, n - 1, net);
    }
  }

  lemma FetchIs(w: World, q: Addr, net: Net)
    requires q in w.queries
    ensures Step(w, FetchRow(q, []), net) == FetchCursor(w, q, net).1 && q in FetchCursor(w, q, net).1.queries
  {
    CursorStays(w, q, net);
    hide FetchCursor;
    assert ReadContents(FetchCursor(w, q, net).1, q, [], net) == FetchCursor(w, q, net).1;
  }

  lemma CursorStays(w: World, q: Addr, net: Net)
    requires q in w.queries
    ensures q in FetchCursor(w, q, net).1.queries
  {
    hide Exhaust;
  }

  /** A server with `n` more rows delivers `n` rows, which change nothing; the next fetch delivers none and closes
      the result, and so does no later one deliver any. */
  lemma {:induction false} RowsThenEnd(w: World, q: Addr, n: nat, net: Net, t: Addr, aux: Option<Addr>)
    requires Inv(w, aux) && Fetching(w, q) && w.queries[q].trans == Some(t)
    requires forall k: nat :: w.tick <= k < w.tick + 2 * n ==> net(k)
    requires !net(w.tick + 2 * n) || !net(w.tick + 2 * n + 1)
    ensures Fetches(w, q, n, net) == (seq(n, i => true), w.(tick := w.tick + 2 * n))
    ensures var (rows, r) := Fetches(w, q, n + 1, net);
            && rows == seq(n, i => true) + [false]
            && q in r.queries && !r.queries[q].isOpen && !r.queries[q].more && Untouched(w, r)
            && OpenOn(r.queries, t) == OpenOn(w.queries, t) - {q} && FetchCursor(r, q, net) == (false, r)
    decreases n
  {
    hide Inv, FetchCursor, Untouched, OpenOn;
    FetchExactly(w, q, net, t, aux);
    var r := FetchCursor(w, q, net).1;
    if n == 0 {
      assert Fetches(r, q, 0, net) == ([], r);
      EndStays(r, q, net);
    } else {
      assert net(w.tick) && net(w.tick + 1);
      TickKeeps(w, aux);
      TickKeeps(Tick(w), aux);
      assert r == Tick(Tick(w));
      RowsThenEnd(r, q, n - 1, net, t, aux);
      assert seq(n, i => true) == [true] + seq(n - 1, i => true);
      Same2(w, r, Fetches(r, q, n, net).1);
    }
  }

  lemma Same2(w: World, r: World, s: World)
    requires r == w.(tick := r.tick) && Untouched(r, s)
    ensures Untouched(w, s)
  {}

  lemma EndStays(w: World, q: Addr, net: Net)
    requires q in w.queries && !w.queries[q].more
    ensures FetchCursor(w, q, net) == (false, w)
  {}

  // ------------------------------------------------------------ ending a transaction by SQL and by object

  /** A statement on a started transaction, with no cursor of its own open. */
  ghost predicate Ready(w: World, q: Addr, t: Addr) {
    && q in w.queries && t in w.trans && w.trans[t].handle.Some? && w.queries[q].trans == Some(t)
    && !w.queries[q].isOpen && w.queries[q].stmt.Some?
  }

  /** COMMIT and ROLLBACK as SQL: the work becomes durable by an accepted COMMIT and is lost by an accepted
      ROLLBACK, and the transaction has ended; where the server refuses, everything is as before. */
  lemma SqlEnds(w: World, q: Addr, t: Addr, input: Input, net: Net, aux: Option<Addr>)
    requires Inv(w, aux) && Ready(w, q, t) && (w.queries[q].kind.CommitSql? || w.queries[q].kind.RollbackSql?)
    requires input.args >= w.queries[q].inputs
    ensures var (reply, r) := Exec(w, q, input, net);
            && (forall u :: u in w.trans && u != t ==> u in r.trans && Alike(w.trans[u], r.trans[u]))
            && t in r.trans && r.trans[t].retain == w.trans[t].retain
            && if net(w.tick) then
                 && reply == Done && r.trans[t].handle.None?
                 && r.durable == w.durable + if w.queries[q].kind.CommitSql? then Pending(w.trans, t) else []
               else reply == Failure && Untouched(w, r)
    ensures var (reply, r) := Exec(w, q, input, net); Stays(r, reply, q, t)
  {
    hide Inv, TryCommit, TryRollback, FreeHandle, Shut, SameLayout, OnlyTrans, Put;
    EndIs(w, t, net);
    TickKeeps(w, aux);
    ShutUntouched(Tick(w), q, net, aux);
    ShutStays(Tick(w), Failure, q, t, net, aux);
    var commit := w.queries[q].kind.CommitSql?;
    if net(w.tick) { SqlAccepted(w, t, commit, net); }
    PutIs(w, t, w.trans[t].(handle := None), w.durable + (if commit then Pending(w.trans, t) else []), w.tick + 1);
  }

  lemma SqlAccepted(w: World, t: Addr, commit: bool, net: Net)
    requires t in w.trans && w.trans[t].handle.Some? && net(w.tick)
    ensures FreeHandle(if commit then TryCommit(w, t, net).1 else TryRollback(w, t, net).1, t) ==
              Put(w, t, w.trans[t].(handle := None), w.durable + (if commit then Pending(w.trans, t) else []),
                  w.tick + 1)
  {
    hide TryCommit, TryRollback, FreeHandle, Put, SameLayout, OnlyTrans;
    EndIs(w, t, net);
    var (tr, h, d) := (w.trans[t], w.trans[t].handle.value, w.durable + (if commit then Pending(w.trans, t) else []));
    var ended := tr.(handle := Some(h.(pending := [])));
    assert w.durable + [] == w.durable;
    PutTwice(w, t, ended, tr.(handle := None), d, d, w.tick + 1, w.tick + 1);
    PutIs(w, t, ended, d, w.tick + 1);
    FreeHandlePut(Put(w, t, ended, d, w.tick + 1), t);
  }

  lemma PutIs(w: World, t: Addr, tr: Trans, durable: seq<Work>, tick: nat)
    ensures var r := Put(w, t, tr, durable, tick);
            && t in r.trans && Same(r.trans[t], tr) && r.durable == durable && r.tick == tick &&
               Same(r.queries, w.queries)
            && forall u :: u in w.trans && u != t ==> u in r.trans && Same(r.trans[u], w.trans[u])
  {}

  /** Firebird\Transaction::commit and ::rollback: the handle goes in every case, the mark stays, and the work becomes
      durable by an accepted commit only. */
  lemma ObjectEndsExactly(w: World, t: Addr, commit: bool, net: Net)
    requires t in w.trans && w.trans[t].handle.Some?
    ensures ObjectEnd(w, t, commit, net) ==
              Put(w, t, w.trans[t].(handle := None),
                  w.durable + (if commit && net(w.tick) then Pending(w.trans, t) else []), w.tick + 1)
  {
    hide EndAndDrop, Put, SameLayout, OnlyTrans;
    DropPut(w, t, true, commit, net);
  }

  /** Releasing the metadata locks commits the work that is pending and starts again on the stored block, without
      locks and mark; a refused commit changes nothing, and a refused start leaves the transaction ended. */
  lemma LocksReleased(w: World, t: Addr, net: Net, aux: Option<Addr>)
    requires Inv(w, aux) && t in w.trans && w.trans[t].handle.Some?
    ensures var (r, tr, k) := (ReleaseLocks(w, t, net), w.trans[t], w.tick);
            if !net(k) then r == w.(tick := k + 1)
            else
              && r.durable == w.durable + Pending(w.trans, t) && t in r.trans
              && r.trans[t].handle == (if net(k + 1) && net(k + 2) then Some(Handle(tr.tpb, [], false)) else None)
              && (r.trans[t].handle.Some? ==> !r.trans[t].retain)
              && forall u :: u in w.trans && u != t ==> u in r.trans && Same(r.trans[u], w.trans[u])
  {
    hide Inv, CommitRestart, SameLayout, OnlyTrans;
    IsWorking(w, t, aux);
    CommitRestartIs(w, t, net);
  }

  /** Destroying a transaction loses what it has pending, whatever the server answers, and touches no other. */
  lemma DestroyLoses(w: World, t: Addr, net: Net)
    requires Inv(w, None) && t in w.trans
    ensures var r := FreeTrans(w, t, net); t !in r.trans && Elsewhere(w, r, t)
  {
    hide Inv, EndAndDrop, UnlinkTrans, DetachAndFree, RegistryOk, BatchRegistryOk, Elsewhere;
    LinkLive(w, t, None);
    RegistriesOf(w, t, None);
    var pings := w.trans[t].handle.Some? && w.trans[t].link.Some?;
    var w0 := if pings then Tick(w) else w;
    DropLoses(w0, t, pings && net(w.tick), net);
    var w1 := EndAndDrop(w0, t, pings && net(w.tick), false, net);
    UnlinkedIs(w1, t);
    FreedIs(UnlinkTrans(w1, t), t, w);
  }

  lemma DropLoses(w: World, t: Addr, act: bool, net: Net)
    requires t in w.trans
    ensures var r := EndAndDrop(w, t, act, false, net);
            && Same(r.trans, w.trans[t := w.trans[t].(handle := None)]) && r.durable == w.durable
            && Same(r.queries, w.queries) && Same(r.batches, w.batches)
  {
    hide EndAndDrop, SameLayout, OnlyTrans, Put;
    DropPut(w, t, act, false, net);
    assert w.durable + [] == w.durable;
    DroppedPut(w, t, w.tick + NodeCalls(w.trans, Some(t), act));
  }

  lemma RegistriesOf(w: World, t: Addr, aux: Option<Addr>)
    requires Inv(w, aux) && t in w.trans
    ensures RegistryOk(w.trans[t], t, w.queries) && BatchRegistryOk(w.trans[t], t, w.batches)
  {}

  lemma DroppedPut(w: World, t: Addr, tick: nat)
    requires t in w.trans
    ensures Put(w, t, w.trans[t].(handle := None), w.durable, tick) ==
              w.(trans := w.trans[t := w.trans[t].(handle := None)], tick := tick)
  {}

  lemma UnlinkedIs(w: World, t: Addr)
    requires t in w.trans
    ensures var r := UnlinkTrans(w, t);
            && Same(r.queries, w.queries) && Same(r.batches, w.batches) && r.durable == w.durable && t in r.trans
            && Same(r.trans[t], w.trans[t].(link := r.trans[t].link))
            && forall u :: u in w.trans && u != t ==> u in r.trans && Same(r.trans[u], w.trans[u])
  {
    hide Without;
  }

  lemma FreedIs(w1: World, t: Addr, w: World)
    requires t in w1.trans && t in w.trans && w1.trans[t].queries == w.trans[t].queries &&
             w1.trans[t].batches == w.trans[t].batches
    requires Same(w1.queries, w.queries) && Same(w1.batches, w.batches) && w1.durable == w.durable
    requires RegistryOk(w.trans[t], t, w.queries) && BatchRegistryOk(w.trans[t], t, w.batches)
    requires forall u :: u in w.trans && u != t ==> u in w1.trans && Alike(w.trans[u], w1.trans[u])
    ensures var r := DetachAndFree(w1, t); t !in r.trans && Elsewhere(w, r, t)
  {
    DetachIs(w1, t);
    hide DetachAndFree;
  }

  // ------------------------------------------------------------ DDL

  /** The commit and restart in front of DDL on an explicit transaction with open cursors, or with auto_ddl_commit:
      it makes all pending work durable, or, refused, does nothing; and nothing stops the DDL but a refused start. */
  lemma GateExactly(w: World, q: Addr, t: Addr, net: Net)
    requires q in w.queries && t in w.trans && w.queries[q].trans == Some(t) && w.trans[t].handle.Some?
    requires w.queries[q].kind.Ddl? && w.queries[q].explicit && w.queries[q].link in w.links
    ensures var ((go, r), tr, k) := (DdlGate(w, q, net), w.trans[t], w.tick);
            if !(w.rules.autoDdl || tr.count > 0) then go && r == w
            else if !net(k) then go && r == w.(tick := k + 1)
            else
              && go == net(k + 1) && r.tick == k + 2 && r.durable == w.durable + Pending(w.trans, t) && t in r.trans
              && r.trans[t] == tr.(handle := if net(k + 1) then Some(Handle(tr.tpb, [], false)) else None)
              && forall u :: u in w.trans && u != t ==> u in r.trans && Same(r.trans[u], w.trans[u])
  {
    hide DdlGate, Again;
    GateIs(w, q, t, net);
    AgainIs(w, t, net);
  }

  /** A commit, and a start on the stored block if it was accepted. */
  function Again(w: World, t: Addr, net: Net): (bool, World)
    requires t in w.trans
  {
    var (ok, w1) := TryCommit(w, t, net);
    if ok then Start(FreeHandle(w1, t), t, w.trans[t].tpb, net) else (true, w1)
  }

  lemma GateIs(w: World, q: Addr, t: Addr, net: Net)
    requires q in w.queries && t in w.trans && w.queries[q].trans == Some(t) && w.trans[t].handle.Some?
    requires w.queries[q].kind.Ddl? && w.queries[q].explicit && w.queries[q].link in w.links
    ensures DdlGate(w, q, net) == if w.rules.autoDdl || w.trans[t].count > 0 then Again(w, t, net) else (true, w)
  {
    hide TryCommit, FreeHandle, Start, SameLayout, OnlyTrans;
  }

  lemma AgainIs(w: World, t: Addr, net: Net)
    requires t in w.trans && w.trans[t].handle.Some?
    ensures var ((go, r), tr, k) := (Again(w, t, net), w.trans[t], w.tick);
            if !net(k) then go && r == w.(tick := k + 1)
            else
              && go == net(k + 1) && r.tick == k + 2 && r.durable == w.durable + Pending(w.trans, t) && t in r.trans
              && Same(r.trans[t], tr.(handle := if net(k + 1) then Some(Handle(tr.tpb, [], false)) else None))
              && forall u :: u in w.trans && u != t ==> u in r.trans && Same(r.trans[u], w.trans[u])
  {
    hide SameLayout, OnlyTrans, TryCommit, FreeHandle, Start, Put;
    var (tr, d) := (w.trans[t], w.durable + Pending(w.trans, t));
    var ended := tr.(handle := Some(tr.handle.value.(pending := [])));
    EndIs(w, t, net);
    FreedPut(w, t, ended, d, w.tick + 1);
    var w1 := Put(w, t, tr.(handle := None), d, w.tick + 1);
    PutIs(w, t, tr.(handle := None), d, w.tick + 1);
    StartIs(w1, t, tr.tpb, net);
    PutIs(w1, t, tr.(handle := Some(Handle(tr.tpb, [], false))), d, w.tick + 2);
  }

  lemma StartIs(w: World, t: Addr, tpb: seq<Byte>, net: Net)
    requires t in w.trans
    ensures Start(w, t, tpb, net) ==
              if net(w.tick) then
                (true, Put(w, t, w.trans[t].(handle := Some(Handle(tpb, [], false))), w.durable, w.tick + 1))
              else (false, Tick(w))
  {}

  lemma NoGate(w: World, q: Addr, net: Net)
    requires q in w.queries && (!w.queries[q].kind.Ddl? || !w.queries[q].explicit)
    ensures DdlGate(w, q, net) == (true, w)
  {}

  /** DDL of this query is committed as soon as it has been executed. */
  predicate CommitsItself(w: World, q: Addr, t: Addr) {
    q in w.queries &&
    var qq := w.queries[q];
    && qq.kind.Ddl? && !qq.explicit && qq.link in w.links && !w.links[qq.link].persistent
    && w.links[qq.link].trs != [] && w.links[qq.link].trs[0] == Some(t)
  }

  lemma DdlAutocommitIs(w: World, q: Addr, t: Addr, net: Net)
    requires q in w.queries && w.queries[q].trans == Some(t) && t in w.trans && w.trans[t].handle.Some?
    requires w.queries[q].kind.Ddl? && !w.queries[q].explicit ==> w.queries[q].link in w.links
    ensures DdlAutocommit(w, q, net) == if CommitsItself(w, q, t) then AutoCommit(w, t, true, net) else w
  {
    hide AutoCommit;
  }

  // ------------------------------------------------------------ running and finishing

  /** The pending work after a statement that the server ran or refused. */
  function WorkAfter(kind: Kind, effect: Effect, before: seq<Work>, accepted: bool, x: Work): seq<Work> {
    if !accepted || kind.Unsupported? || (kind.Select? && !effect.writes) then before
    else if kind.Savepoint? then before[..Min(effect.keep, |before|)]
    else before + [x]
  }

  /** Whether a statement counts as run: accepted, and with RETURNING its row fetched as well. */
  predicate Runs(qq: Query, net: Net, k: nat) {
    !qq.kind.Unsupported? && net(k) && (qq.kind.Dml? && qq.columns > 0 ==> net(k + 1))
  }

  lemma RunExactly(w: World, q: Addr, t: Addr, effect: Effect, net: Net, aux: Option<Addr>)
    requires Inv(w, aux) && Ready(w, q, t)
    ensures var ((ran, r), qq, h) := (RunStatement(w, q, effect, net), w.queries[q], w.trans[t].handle.value);
            && ran == Runs(qq, net, w.tick)
            && Same(r.trans, w.trans[t := w.trans[t].(handle :=
                 Some(h.(pending := WorkAfter(qq.kind, effect, h.pending, net(w.tick), w.next))))])
            && r.durable == w.durable && Same(r.links, w.links)
            && q in r.queries && Same(r.queries[q], qq.(once := r.queries[q].once))
            && (ran && !(qq.kind.Dml? && qq.columns > 0) ==> r.tick == w.tick + 1)
  {
    hide Inv, AddWork, SameLayout, QueryOnLink, WorkAfter;
    QueryLive(w, q, aux);
    var (qq, h) := (w.queries[q], w.trans[t].handle.value);
    NoWork(qq.kind, effect, h.pending, net(w.tick), w.next);
    SameHandle(w, t);
    AddWorkIs(Tick(w), t, qq.kind, effect);
    if !qq.kind.Unsupported? { WorkAdded(Tick(w), t, qq.kind, effect); }
  }

  lemma NoWork(kind: Kind, effect: Effect, before: seq<Work>, accepted: bool, x: Work)
    ensures !accepted || kind.Unsupported? ==> WorkAfter(kind, effect, before, accepted, x) == before
  {}

  lemma SameHandle(w: World, t: Addr)
    requires t in w.trans && w.trans[t].handle.Some?
    ensures var h := w.trans[t].handle.value;
            w.trans[t := w.trans[t].(handle := Some(h.(pending := h.pending)))] == w.trans
  {}

  lemma WorkAdded(w: World, t: Addr, kind: Kind, effect: Effect)
    requires t in w.trans && w.trans[t].handle.Some? && !kind.Unsupported?
    ensures var (r, h) := (AddWork(w, t, kind, effect), w.trans[t].handle.value);
            && Same(r.trans, w.trans[t := w.trans[t].(handle :=
                 Some(h.(pending := WorkAfter(kind, effect, h.pending, true, w.next))))])
            && r.durable == w.durable && r.tick == w.tick
  {
    assert w.trans[t := w.trans[t]] == w.trans;
  }

  lemma OpenUntouched(w: World, q: Addr)
    ensures Untouched(w, CursorOpened(w, q)) && CursorOpened(w, q).next == w.next
  {
    hide SameLayout, OnlyFlags, CountUp;
    if q in w.queries && w.queries[q].trans.Some? { CountUntouched(w, w.queries[q].trans.value); }
  }

  lemma CountUntouched(w: World, t: Addr)
    ensures Untouched(w, CountUp(w, t)) && CountUp(w, t).next == w.next
  {
    hide SameLayout;
  }

  lemma BornUntouched(w: World, t: Addr, qq: Query)
    ensures Untouched(w, NewQuery(w, t, qq))
  {
    hide Adopted;
  }

  lemma UntouchedChain(w: World, r: World, s: World)
    requires Untouched(w, r) && Untouched(r, s)
    ensures Untouched(w, s)
  {}

  lemma MadeUntouched(w: World, q: Addr, aux: Option<Addr>)
    requires Inv(w, aux) && q in w.queries && w.queries[q].trans.Some?
    ensures var (reply, r) := MakeResult(w, q);
            reply == Result(w.next) && Untouched(w, r) && Stays(r, reply, q, w.queries[q].trans.value)
  {
    hide Inv, MakeResult, Untouched, Stays;
    ColumnsMatch(w, q, aux);
    FreshAddress(w, aux);
    QueryTrans(w, q, aux);
    MadeUntouchedLike(w, q, w.queries[q]);
  }

  lemma SelectUntouched(w: World, q: Addr, aux: Option<Addr>)
    requires Inv(w, aux) && q in w.queries && w.queries[q].trans.Some? && w.queries[q].kind.Select?
    ensures var (reply, r) := FinishSelect(w, q);
            reply.Result? && Untouched(w, r) && Stays(r, reply, q, w.queries[q].trans.value)
  {
    hide Inv, MakeResult, CursorOpened, SetMore, SameLayout, OnlyFlags, Untouched;
    FreshAddress(w, aux);
    var (w1, w2) := (CursorOpened(w, q), SetMore(CursorOpened(w, q), q, true));
    OpenUntouched(w, q);
    OpenedRole(w, q);
    MoreUntouched(w1, q);
    UntouchedChain(w, w1, w2);
    QueryTrans(w, q, aux);
    OpenedKeepsColumns(w, q, aux);
    MadeUntouchedLike(w2, q, w.queries[q]);
    UntouchedChain(w, w2, MakeResult(w2, q).1);
  }

  lemma OpenedRole(w: World, q: Addr)
    requires q in w.queries
    ensures var r := SetMore(CursorOpened(w, q), q, true);
            && q in r.queries && SameRole(w.queries[q], r.queries[q]) && r.next == w.next
            && r.queries.Keys == w.queries.Keys && r.trans.Keys == w.trans.Keys
  {
    hide CursorOpened;
    OpenUntouched(w, q);
  }

  lemma MoreUntouched(w: World, q: Addr)
    ensures Untouched(w, SetMore(w, q, true))
  {}

  lemma QueryTrans(w: World, q: Addr, aux: Option<Addr>)
    requires Inv(w, aux) && q in w.queries && w.queries[q].trans.Some?
    ensures w.queries[q].trans.value in w.trans
  {
    QueryLive(w, q, aux);
  }

  lemma OpenedKeepsColumns(w: World, q: Addr, aux: Option<Addr>)
    requires Inv(w, aux) && q in w.queries
    ensures w.queries[q].sqld == w.queries[q].columns <= MAX_COLUMNS
  {
    ColumnsMatch(w, q, aux);
  }

  /** A statement stays on its transaction, closed unless it has a result; a result is on the same transaction and has
      no results of its own. */
  ghost predicate Stays(w: World, reply: Reply, q: Addr, t: Addr) {
    && q in w.queries && w.queries[q].trans == Some(t) && (!reply.Result? ==> !w.queries[q].isOpen)
    && (reply.Result? && reply.q != q ==>
          reply.q in w.queries && w.queries[reply.q].trans == Some(t) && w.queries[reply.q].children == [])
  }

  lemma NewbornStays(w: World, q: Addr, t: Addr, qq: Query)
    requires t in w.trans && w.next !in w.queries && qq.children == [] && q in w.queries &&
             w.queries[q].trans == Some(t)
    requires qq.parent.Some? ==> qq.parent.value in w.queries
    ensures Stays(CursorOpened(NewQuery(w, t, qq), w.next), Result(w.next), q, t)
  {
    hide CursorOpened;
  }

  lemma ShutStays(w: World, reply: Reply, q: Addr, t: Addr, net: Net, aux: Option<Addr>)
    requires Inv(w, aux) && q in w.queries && w.queries[q].trans == Some(t) && !reply.Result?
    ensures Stays(Shut(w, q, net), reply, q, t)
  {
    hide Inv, Shut;
    ShutKeeps(w, q, net, aux);
  }

  /** A result is made of any query whose column counts agree. */
  lemma MadeUntouchedLike(w: World, q: Addr, qq: Query)
    requires q in w.queries && SameRole(qq, w.queries[q]) && qq.trans.Some? && qq.sqld == qq.columns <= MAX_COLUMNS
    requires qq.trans.value in w.trans && w.next !in w.queries
    ensures var (reply, r) := MakeResult(w, q);
            reply == Result(w.next) && Untouched(w, r) && Stays(r, reply, q, qq.trans.value)
  {
    hide NewQuery, CursorOpened, SameLayout, OnlyFlags, Untouched, Stays;
    NewbornStays(w, q, w.queries[q].trans.value, ResultOf(w.queries[q], q));
    var w1 := NewQuery(w, w.queries[q].trans.value, ResultOf(w.queries[q], q));
    BornUntouched(w, w.queries[q].trans.value, ResultOf(w.queries[q], q));
    OpenUntouched(w1, w.next);
    UntouchedChain(w, w1, CursorOpened(w1, w.next));
  }

  /** What a statement that ran comes to: a result for a SELECT and for a row, and nothing else changes; otherwise the
      call is done, except that DML and procedures are also asked how many rows they affected. */
  lemma FinishExactly(w: World, q: Addr, t: Addr, net: Net, aux: Option<Addr>)
    requires Inv(w, aux) && Ready(w, q, t) && !CommitsItself(w, q, t)
    requires w.queries[q].kind.Ddl? && !w.queries[q].explicit ==> w.queries[q].link in w.links
    ensures var ((reply, r), qq) := (Finish(w, q, net), w.queries[q]);
            && Untouched(w, r) && Stays(r, reply, q, t)
            && (if qq.kind.Select? || (OneShot(qq.kind) && qq.columns > 0) then reply.Result?
                else if OneShot(qq.kind) then reply == (if net(w.tick) then Done else Failure) && r.tick == w.tick + 1
                else reply == Done && r.tick == w.tick)
  {
    hide Inv, DdlAutocommit, FinishSelect, MakeResult, Shut, SameLayout, OnlyFlags, CommitsItself, Untouched,
         Stays;
    DdlAutocommitIs(w, q, t, net);
    if !w.queries[q].kind.Ddl? { NotDdl(w, q, net); }
    TickKeeps(w, aux);
    ShutUntouched(w, q, net, aux);
    ShutStays(w, Done, q, t, net, aux);
    ShutUntouched(Tick(w), q, net, aux);
    ShutStays(Tick(w), if net(w.tick) then Done else Failure, q, t, net, aux);
    TickUntouched(w);
    UntouchedChain(w, Tick(w), Shut(Tick(w), q, net));
    if w.queries[q].kind.Select? { SelectUntouched(w, q, aux); }
    MadeUntouched(w, q, aux);
  }

  lemma NotDdl(w: World, q: Addr, net: Net)
    requires q in w.queries && !w.queries[q].kind.Ddl?
    ensures DdlAutocommit(w, q, net) == w
  {}

  // ------------------------------------------------------------ whole executions

  /** The reply that an execution comes to when it is neither transaction control nor refused before the server is
      asked; the k-th call is the first. */
  function Replied(qq: Query, net: Net, k: nat): (r: int)
    ensures r == 0 || r == 1 || r == 2
  {
    if !Runs(qq, net, k) then 0
    else if qq.kind.Select? || (OneShot(qq.kind) && qq.columns > 0) then 2
    else if OneShot(qq.kind) && !net(k + 1) then 0 else 1
  }

  /** An execution, exactly: it fails, is done or has a result as the server's answers say; its work is pending if the
      server accepted it; nothing becomes durable, and no other transaction is touched. */
  lemma ExecutedExactly(w: World, q: Addr, t: Addr, input: Input, net: Net, aux: Option<Addr>)
    requires Inv(w, aux) && Ready(w, q, t) && !IsControl(w.queries[q].kind) && input.args >= w.queries[q].inputs
    requires Bind(w, q, input) == (true, w) && !CommitsItself(w, q, t)
    requires w.queries[q].kind.Ddl? ==>
               w.queries[q].link in w.links && (w.queries[q].explicit ==> !w.rules.autoDdl && w.trans[t].count == 0)
    ensures var ((reply, r), qq, h) := (Exec(w, q, input, net), w.queries[q], w.trans[t].handle.value);
            && (reply.Failure? <==> Replied(qq, net, w.tick) == 0) && (reply.Done? <==> Replied(qq, net, w.tick) == 1)
            && (reply.Result? <==> Replied(qq, net, w.tick) == 2)
            && Elsewhere(w, r, t) && t in r.trans && r.trans[t].retain == w.trans[t].retain
            && Stays(r, reply, q, t)
            && r.trans[t].handle ==
                 Some(h.(pending := WorkAfter(qq.kind, input.effect, h.pending, net(w.tick), w.next)))
            && (reply.Done? ==> r.tick == w.tick + if OneShot(qq.kind) then 2 else 1)
  {
    hide Inv, Bind, Exec, RunStatement, Finish, Shut, Untouched, Elsewhere, CommitsItself, WorkAfter, SameLayout,
         OnlyTrans, OnlyFlags, Stays;
    ExecIs(w, q, t, input, net);
    RunExactly(w, q, t, input.effect, net, aux);
    RunKeeps(w, q, input.effect, net, aux);
    var w1 := RunStatement(w, q, input.effect, net).1;
    SameCommits(w, w1, q, t);
    FinishExactly(w1, q, t, net, aux);
    ShutUntouched(w1, q, net, aux);
    ShutStays(w1, Failure, q, t, net, aux);
    RanElsewhere(w, w1, t);
    ThenUntouched(w, w1, Finish(w1, q, net).1, t);
    ThenUntouched(w, w1, Shut(w1, q, net), t);
  }

  /** Executing a statement whose cursor is still open closes that cursor first, without touching any transaction, and
      is then an execution like any other. */
  lemma ReexecutesClosed(w: World, q: Addr, t: Addr, input: Input, net: Net, aux: Option<Addr>)
    requires Inv(w, aux) && q in w.queries && w.queries[q].isOpen && !w.queries[q].kind.Procedure?
    requires w.queries[q].stmt.Some? && w.queries[q].trans == Some(t) && w.trans[t].handle.Some?
    requires input.args >= w.queries[q].inputs
    ensures var w1 := Shut(w, q, net);
            && Ready(w1, q, t) && Untouched(w, w1) && Exec(w, q, input, net) == Exec(w1, q, input, net)
            && OpenOn(w1.queries, t) == OpenOn(w.queries, t) - {q}
  {
    hide Inv, Shut, Control, ExecPlain, QueryOnLink, SameLayout;
    QueryLive(w, q, aux);
    ShutUntouched(w, q, net, aux);
    ShutKeeps(w, q, net, aux);
  }

  /** Nothing comes before the statement is given to the server. */
  lemma ExecIs(w: World, q: Addr, t: Addr, input: Input, net: Net)
    requires Ready(w, q, t) && !IsControl(w.queries[q].kind) && input.args >= w.queries[q].inputs
    requires Bind(w, q, input) == (true, w)
    requires w.queries[q].kind.Ddl? && w.queries[q].explicit ==>
               w.queries[q].link in w.links && !w.rules.autoDdl && w.trans[t].count == 0
    ensures Exec(w, q, input, net) ==
              var (ran, w1) := RunStatement(w, q, input.effect, net);
              if ran then Finish(w1, q, net) else (Failure, Shut(w1, q, net))
  {
    hide Bind, EnsureDefault, CloseForReexec, DdlGate, RunStatement, Finish, Shut;
    ReadyFirst(w, q, t, input.dflt, net);
    if w.queries[q].kind.Ddl? && w.queries[q].explicit { GateExactly(w, q, t, net); } else { NoGate(w, q, net); }
  }

  lemma ReadyFirst(w: World, q: Addr, t: Addr, dflt: seq<Byte>, net: Net)
    requires Ready(w, q, t)
    ensures CloseForReexec(w, q, net) == w && EnsureDefault(w, q, dflt, net) == (true, w)
  {}

  lemma SameCommits(w: World, r: World, q: Addr, t: Addr)
    requires q in w.queries && q in r.queries && Same(r.links, w.links) &&
             Same(r.queries[q], w.queries[q].(once := r.queries[q].once))
    ensures CommitsItself(r, q, t) == CommitsItself(w, q, t)
  {}

  lemma RanElsewhere(w: World, r: World, t: Addr)
    requires t in w.trans && t in r.trans && Same(r.trans, w.trans[t := r.trans[t]]) && r.durable == w.durable
    ensures Elsewhere(w, r, t)
  {}

  lemma ThenUntouched(w: World, r: World, s: World, t: Addr)
    requires Elsewhere(w, r, t) && Untouched(r, s) && t in r.trans
    ensures Elsewhere(w, s, t) && t in s.trans && Alike(r.trans[t], s.trans[t])
  {}

  // ------------------------------------------------------------ preparing

  /** A statement is prepared exactly on a started transaction, when the server accepts it and describes it, and it
      has no more columns than a result can. It is then what the caller named, closed, enrolled in front; nothing
      else has changed. */
  lemma PreparesExactly(w: World, l: Addr, t: Addr, explicit: bool, kind: Kind, form: Form, net: Net, aux: Option<Addr>)
    requires Inv(w, aux) && l in w.links && Fits(w, l, explicit, t, aux)
    ensures var ((q, r), tr) := (Prepare(w, l, t, explicit, kind, form, net), w.trans[t]);
            && (q.Some? <==> tr.handle.Some? && net(w.tick) && net(w.tick + 1) && form.columns <= MAX_COLUMNS)
            && (q.Some? ==>
                 && q.value == w.next && q.value in r.queries && r.tick == w.tick + 2 && r.next == w.next + 2
                 && Same(r.queries[q.value],
                         Query(l, Some(t), Some(t), explicit, kind, form.columns, form.columns, form.inputs,
                               form.inputs > 0, false, false, false, Some(w.next + 1), true, None, []))
                 && Same(r.trans, w.trans[t := tr.(queries := [w.next] + tr.queries)]) && r.durable == w.durable
                 && Same(r.links, w.links) && r.rules == w.rules)
  {
    hide Inv, NewQuery, PrepareOn;
    FreshAddress(w, aux);
    BornIs(w, t, FreshQuery(l, explicit, kind));
    PreparedOnIs(NewQuery(w, t, FreshQuery(l, explicit, kind)), w.next, t, form, net);
  }

  lemma BornIs(w: World, t: Addr, qq: Query)
    requires t in w.trans && qq.parent.None?
    ensures var r := NewQuery(w, t, qq);
            && Same(r.queries, w.queries[w.next := qq.(trans := Some(t), reg := Some(t))])
            && Same(r.trans, w.trans[t := w.trans[t].(queries := [w.next] + w.trans[t].queries)])
            && Same(r.links, w.links) && r.next == w.next + 1 && r.tick == w.tick && r.durable == w.durable
            && r.rules == w.rules
  {}

  lemma PreparedOnIs(w: World, q: Addr, t: Addr, form: Form, net: Net)
    requires q in w.queries && t in w.trans
    ensures var (found, r) := PrepareOn(w, q, t, form, net);
            && (found.Some? <==>
                 w.trans[t].handle.Some? && net(w.tick) && net(w.tick + 1) && form.columns <= MAX_COLUMNS)
            && (found.Some? ==>
                 && found == Some(q) && r.tick == w.tick + 2 && r.next == w.next + 1 && r.durable == w.durable
                 && Same(r.queries, w.queries[q := Described(w.queries[q].(stmt := Some(w.next)), form)])
                 && Same(r.trans, w.trans) && Same(r.links, w.links) && r.rules == w.rules)
  {
    hide FreeTree;
    UpdateTwice(w.queries, q, w.queries[q].(stmt := Some(w.next)),
                Described(w.queries[q].(stmt := Some(w.next)), form));
  }

  /** A statement that is not prepared leaves nothing behind, unless its transaction was marked with nothing
      enrolled. */
  lemma UnpreparedUntouched(w: World, l: Addr, t: Addr, explicit: bool, kind: Kind, form: Form, net: Net,
                            aux: Option<Addr>)
    requires Inv(w, aux) && l in w.links && Fits(w, l, explicit, t, aux) && !w.trans[t].retain
    ensures var (q, r) := Prepare(w, l, t, explicit, kind, form, net); q.None? ==> Untouched(w, r)
  {
    hide Inv, NewQuery, PrepareOn, Untouched;
    var w1 := NewQuery(w, t, FreshQuery(l, explicit, kind));
    BirthKeeps(w, l, t, explicit, kind, aux);
    BornUntouched(w, t, FreshQuery(l, explicit, kind));
    BornUnmarked(w, t, FreshQuery(l, explicit, kind));
    FailedUntouched(w1, w.next, t, form, net, aux);
    if Prepare(w, l, t, explicit, kind, form, net).0.None? {
      UntouchedChain(w, w1, Prepare(w, l, t, explicit, kind, form, net).1);
    }
  }

  lemma BornUnmarked(w: World, t: Addr, qq: Query)
    requires t in w.trans && qq.parent.None?
    ensures var r := NewQuery(w, t, qq); t in r.trans && r.trans[t].retain == w.trans[t].retain
  {}

  /** A half-made statement, closed and childless, on a transaction without the mark, can be freed without a trace. */
  lemma FailedUntouched(w: World, q: Addr, t: Addr, form: Form, net: Net, aux: Option<Addr>)
    requires Inv(w, aux) && t in w.trans && !w.trans[t].retain && q in w.queries && w.queries[q].trans == Some(t)
    requires w.queries[q].stmt.None? && w.queries[q].owns && w.queries[q].parent.None? && !w.queries[q].isOpen
    requires w.queries[q].children == []
    ensures var (r, w1) := PrepareOn(w, q, t, form, net); r.None? ==> Untouched(w, w1)
  {
    hide Inv, FreeQuery, AttachStmt, Untouched;
    FreedUntouched(w, q, t, net, aux);
    TickKeeps(w, aux);
    FreedUntouched(Tick(w), q, t, net, aux);
    TickUntouched(w);
    UntouchedChain(w, Tick(w), FreeQuery(Tick(w), q, net));
    if w.trans[t].handle.Some? {
      AttachKeeps(Tick(w), q, aux);
      AttachedIs(Tick(w), q, t);
      var w2 := AttachStmt(Tick(w), q);
      TickKeeps(w2, aux);
      TickUntouched(w2);
      FreedUntouched(Tick(w2), q, t, net, aux);
      UntouchedChain(w, Tick(w), w2);
      UntouchedChain(w, w2, Tick(w2));
      UntouchedChain(w, Tick(w2), FreeQuery(Tick(w2), q, net));
    }
  }

  lemma Unchanged(w: World)
    ensures Untouched(w, w)
  {}

  lemma TickUntouched(w: World)
    ensures Untouched(w, Tick(w))
  {}

  lemma AttachedIs(w: World, q: Addr, t: Addr)
    requires q in w.queries && t in w.trans
    ensures var r := AttachStmt(w, q);
            && Untouched(w, r) && t in r.trans && r.trans[t].retain == w.trans[t].retain && q in r.queries
            && Same(r.queries[q], w.queries[q].(stmt := Some(w.next)))
  {}

  /** Freeing a closed statement without results, on a transaction without the mark, touches no handle and asks the
      server nothing. */
  lemma FreedUntouched(w: World, q: Addr, t: Addr, net: Net, aux: Option<Addr>)
    requires Inv(w, aux) && t in w.trans && !w.trans[t].retain && q in w.queries && w.queries[q].trans == Some(t)
    requires w.queries[q].children == [] && w.queries[q].parent.None? && !w.queries[q].isOpen
    ensures var r := FreeQuery(w, q, net); Untouched(w, r) && r.tick == w.tick && t in r.trans
  {
    hide Inv, DropStmt, RemoveQuery, ReleaseIfIdle, QueryOnLink, Pruned, Left;
    QueryLive(w, q, aux);
    assert FreeAll(w, q, [], w.next, net) == w;
    DroppedIs(w, q);
    DropTrans(w, q);
    RemoveQueryIs(DropStmt(w, q), q);
    LeftUntouched(DropStmt(w, q).trans, DropStmt(w, q).queries[q].reg, q);
    Unmarked(RemoveQuery(DropStmt(w, q), q), t, net);
  }

  lemma DropTrans(w: World, q: Addr)
    requires q in w.queries
    ensures var r := DropStmt(w, q);
            && Same(r.trans, w.trans) && r.durable == w.durable && r.tick == w.tick && q in r.queries
            && r.queries[q].trans == w.queries[q].trans && r.queries[q].isOpen == w.queries[q].isOpen
  {}

  lemma LeftUntouched(T: map<Addr, Trans>, reg: Option<Addr>, q: Addr)
    ensures Left(T, reg, q).Keys == T.Keys
    ensures forall u :: u in T ==> Left(T, reg, q)[u].handle == T[u].handle && Left(T, reg, q)[u].retain == T[u].retain
  {
    hide Without;
  }

  lemma Unmarked(w: World, t: Addr, net: Net)
    requires t in w.trans && !w.trans[t].retain
    ensures ReleaseIfIdle(w, t, net) == w
  {
    hide CommitRestart, SameLayout, OnlyTrans;
  }
}
