/** What the invariant means for callers: cursors, idle release, handles, default transactions, and the
    hard paths that stand in for retaining ones. */
module Outcomes {
  import opened State
  import opened Transactions
  import opened Queries
  import opened Invariant
  import opened TransactionsKeep
  import opened StructureKeeps
  import opened LinksKeep
  import opened ExecKeeps

  // ------------------------------------------------------------ cursor counting

  ghost function OpenOn(Q: map<Addr, Query>, t: Addr): set<Addr> {
    set q | q in Q && Q[q].isOpen && Q[q].trans == Some(t)
  }

  ghost function OpenAmong(Q: map<Addr, Query>, s: seq<Addr>): set<Addr> { set q | q in s && OpenIn(Q, q) }

  lemma {:induction false} OpensCounts(Q: map<Addr, Query>, s: seq<Addr>)
    requires NoDup(s)
    ensures Opens(Q, s) == |OpenAmong(Q, s)|
  {
    if s != [] {
      assert NoDup(s[1..]) && s[0] !in s[1..] && s == [s[0]] + s[1..];
      OpensCounts(Q, s[1..]);
      var rest := OpenAmong(Q, s[1..]);
      assert OpenAmong(Q, s) == if OpenIn(Q, s[0]) then {s[0]} + rest else rest;
    }
  }

  /** The registry walk counts the live open queries of the transaction. */
  lemma OpensAreLive(w: World, t: Addr, aux: Option<Addr>)
    requires Inv(w, aux) && t in w.trans
    ensures Opens(w.queries, w.trans[t].queries) == |OpenOn(w.queries, t)|
  {
    assert RegistryOk(w.trans[t], t, w.queries);
    OpensCounts(w.queries, w.trans[t].queries);
    forall q | q in w.queries ensures QueryEnrolled(w.trans, w.queries[q], q) {}
    assert OpenAmong(w.queries, w.trans[t].queries) == OpenOn(w.queries, t);
  }

  /** The counter is never below the number of live open cursors, and is that number in a strict run. */
  lemma CounterBounds(w: World, t: Addr, aux: Option<Addr>)
    requires Inv(w, aux) && t in w.trans && !w.wrapped
    ensures w.trans[t].count >= |OpenOn(w.queries, t)|
    ensures w.rules.strict ==> w.trans[t].count == |OpenOn(w.queries, t)|
  {
    OpensAreLive(w, t, aux);
    assert CountOk(w.queries, w.trans[t], w.rules.strict);
  }

  /** A counter of 0 means that no live query of the transaction has an open cursor. */
  lemma ZeroMeansNoCursor(w: World, t: Addr, q: Addr, aux: Option<Addr>)
    requires Inv(w, aux) && t in w.trans && !w.wrapped && w.trans[t].count == 0
    requires q in w.queries && w.queries[q].trans == Some(t)
    ensures !w.queries[q].isOpen
  {
    CounterBounds(w, t, aux);
    assert q in OpenOn(w.queries, t) ==> |OpenOn(w.queries, t)| > 0;
  }

  /** The bound survives opening one more cursor exactly as long as the counter does not wrap around. */
  lemma OpeningCounts(w: World, q: Addr, t: Addr, aux: Option<Addr>)
    requires Inv(w, aux) && !w.wrapped && q in w.queries && !w.queries[q].isOpen && w.queries[q].trans == Some(t)
    ensures var w1 := CursorOpened(w, q);
            t in w1.trans && (w1.trans[t].count >= |OpenOn(w1.queries, t)| <==> w.trans[t].count + 1 < COUNTER_LIMIT)
  {
    hide Inv, CursorOpened, QueryOnLink, SameLayout, OnlyFlags;
    QueryLive(w, q, aux);
    CounterBounds(w, t, aux);
    OpenedIs(w, q);
    var w1 := CursorOpened(w, q);
    assert OpenOn(w1.queries, t) == OpenOn(w.queries, t) + {q};
  }

  /** A query without a handle has no children: they would share it. */
  lemma NoHandleNoChild(w: World, q: Addr, aux: Option<Addr>)
    requires Inv(w, aux) && q in w.queries && w.queries[q].stmt.None?
    ensures w.queries[q].children == []
  {
    var s := w.queries[q].children;
    assert ChildrenOk(w.queries, w.queries[q], q);
    assert s != [] ==> ParentOk(w.queries, w.queries[s[0]], s[0]);
  }

  /** Freeing an open one-shot result that was never fetched skips the counter: it stays one too high. */
  lemma UnfetchedLeaks(w: World, q: Addr, t: Addr, net: Net)
    requires Inv(w, None) && !w.wrapped && q in w.queries
    requires w.queries[q].isOpen && w.queries[q].stmt.None? && w.queries[q].trans == Some(t)
    ensures var w1 := FreeQuery(w, q, net);
            t in w1.trans && !w1.wrapped && w1.trans[t].count == w.trans[t].count &&
            w1.trans[t].count > |OpenOn(w1.queries, t)|
  {
    hide Inv, QueryOnLink, OpenOn, DestroyLeaf;
    QueryLive(w, q, None);
    NoHandleNoChild(w, q, None);
    OpensPositive(w, q, t, None);
    LeakIs(w, q, t, net);
    CounterBounds(w, t, None);
    OneFewerOpen(w.queries, RemoveQuery(w, q).queries, q, t);
    assert FreeAll(w, q, [], w.next, net) == w;
  }

  lemma LeakIs(w: World, q: Addr, t: Addr, net: Net)
    requires q in w.queries && w.queries[q].isOpen && w.queries[q].stmt.None? && w.queries[q].children == []
    requires w.queries[q].trans == Some(t) && w.queries[q].reg == Some(t) && t in w.trans && w.trans[t].count > 0
    requires w.queries[q].parent.Some? ==> w.queries[q].parent.value in w.queries
    ensures var w1 := RemoveQuery(w, q);
            && DestroyLeaf(w, q, true, net) == w1 && t in w1.trans && w1.trans[t].count == w.trans[t].count &&
               w1.wrapped == w.wrapped
            && w1.queries == Pruned(w.queries, q)
  {
    hide Pruned, Without;
  }

  lemma OneFewerOpen(Q: map<Addr, Query>, P: map<Addr, Query>, q: Addr, t: Addr)
    requires q in Q && Q[q].isOpen && Q[q].trans == Some(t) && P == Pruned(Q, q)
    ensures |OpenOn(P, t)| == |OpenOn(Q, t)| - 1
  {
    assert OpenOn(P, t) == OpenOn(Q, t) - {q};
  }

  // ------------------------------------------------------------ what the commit paths leave

  /** `w` with `t`, the durable work and the call count replaced. */
  function Put(w: World, t: Addr, tr: Trans, durable: seq<Work>, tick: nat): World {
    w.(trans := w.trans[t := tr], durable := durable, tick := tick)
  }

  lemma PutTwice(w: World, t: Addr, a: Trans, b: Trans, d: seq<Work>, e: seq<Work>, k: nat, n: nat)
    ensures Put(Put(w, t, a, d, k), t, b, e, n) == Put(w, t, b, e, n)
    ensures var r := Put(w, t, a, d, k);
            t in r.trans && r.trans[t] == a && r.durable == d && r.tick == k && r.links == w.links
  {
    UpdateTwice(w.trans, t, a, b);
  }

  /** A live transaction with a handle on a live link. */
  predicate Working(w: World, t: Addr) {
    t in w.trans && w.trans[t].handle.Some? && w.trans[t].link.Some? && w.trans[t].link.value in w.links
  }

  lemma IsWorking(w: World, t: Addr, aux: Option<Addr>)
    requires Inv(w, aux) && t in w.trans && w.trans[t].handle.Some?
    ensures Working(w, t)
  {
    LinkLive(w, t, aux);
  }

  lemma EndIs(w: World, t: Addr, net: Net)
    requires t in w.trans && w.trans[t].handle.Some?
    ensures var (tr, h) := (w.trans[t], w.trans[t].handle.value);
            && TryCommit(w, t, net) == (if net(w.tick)
               then (true, Put(w, t, tr.(handle := Some(h.(pending := []))), w.durable + h.pending, w.tick + 1))
               else (false, Tick(w)))
            && TryRollback(w, t, net) == (if net(w.tick)
               then (true, Put(w, t, tr.(handle := Some(h.(pending := []))), w.durable, w.tick + 1))
               else (false, Tick(w)))
  {}

  lemma FreeHandlePut(w: World, t: Addr)
    requires t in w.trans
    ensures FreeHandle(w, t) == Put(w, t, w.trans[t].(handle := None), w.durable, w.tick)
  {}

  lemma RestartPut(w: World, t: Addr, net: Net)
    requires t in w.trans && w.trans[t].link.Some? && w.trans[t].link.value in w.links
    ensures var anew := w.trans[t].(handle := Some(Handle(w.trans[t].tpb, [], false)));
            && Start(w, t, w.trans[t].tpb, net) ==
                 (if net(w.tick) then (true, Put(w, t, anew, w.durable, w.tick + 1)) else (false, Tick(w)))
            && RestartFromTpb(w, t, net) ==
                 if net(w.tick) && net(w.tick + 1) then (true, Put(w, t, anew.(retain := false), w.durable, w.tick + 2))
                 else (false, w.(tick := if net(w.tick) then w.tick + 2 else w.tick + 1))
  {
    var anew := w.trans[t].(handle := Some(Handle(w.trans[t].tpb, [], false)));
    UpdateTwice(w.trans, t, anew, anew.(retain := false));
  }

  /** Commit and restart, call by call. */
  lemma CommitRestartIs(w: World, t: Addr, net: Net)
    requires Working(w, t)
    ensures var (tr, d) := (w.trans[t], w.durable + w.trans[t].handle.value.pending);
            CommitRestart(w, t, net) ==
              if !net(w.tick) then (false, Tick(w))
              else if net(w.tick + 1) && net(w.tick + 2)
                  then (true, Put(w, t, tr.(handle := Some(Handle(tr.tpb, [], false)), retain := false), d, w.tick + 3))
              else (false, Put(w, t, tr.(handle := None), d, if net(w.tick + 1) then w.tick + 3 else w.tick + 2))
  {
    hide TryCommit, FreeHandle, RestartFromTpb, Put, SameLayout, OnlyTrans;
    EndIs(w, t, net);
    if net(w.tick) {
      var tr := w.trans[t];
      var d := w.durable + tr.handle.value.pending;
      var ended := tr.(handle := Some(tr.handle.value.(pending := [])));
      PutTwice(w, t, ended, tr.(handle := None), d, d, w.tick + 1, w.tick + 1);
      FreeHandlePut(Put(w, t, ended, d, w.tick + 1), t);
      RestartAfter(w, t, tr.(handle := None), d, net);
    }
  }

  /** The restart after the commit. */
  lemma RestartAfter(w: World, t: Addr, tr: Trans, d: seq<Work>, net: Net)
    requires tr.link.Some? && tr.link.value in w.links && tr.handle.None?
    ensures RestartFromTpb(Put(w, t, tr, d, w.tick + 1), t, net) ==
              if net(w.tick + 1) && net(w.tick + 2)
                  then (true, Put(w, t, tr.(handle := Some(Handle(tr.tpb, [], false)), retain := false), d, w.tick + 3))
              else (false, Put(w, t, tr, d, if net(w.tick + 1) then w.tick + 3 else w.tick + 2))
  {
    hide RestartFromTpb, Put;
    PutTwice(w, t, tr, tr.(handle := Some(Handle(tr.tpb, [], false)), retain := false), d, d, w.tick + 1, w.tick + 3);
    RestartPut(Put(w, t, tr, d, w.tick + 1), t, net);
    PutTick(w, t, tr, d, w.tick + 1);
  }

  lemma PutTick(w: World, t: Addr, tr: Trans, d: seq<Work>, k: nat)
    ensures forall n: nat :: Put(w, t, tr, d, k).(tick := n) == Put(w, t, tr, d, n)
  {}

  /** Rollback and restart: no ping between the two, and retain_committed stays. */
  lemma RollbackRestartIs(w: World, t: Addr, net: Net)
    requires Working(w, t)
    ensures var tr := w.trans[t];
            RollbackRestart(w, t, net) ==
              if !net(w.tick) then (false, Tick(w))
              else if net(w.tick + 1) then (true, Put(w, t, tr.(handle := Some(Handle(tr.tpb, [], false))), w.durable,
                                                      w.tick + 2))
              else (false, Put(w, t, tr.(handle := None), w.durable, w.tick + 2))
  {
    hide TryRollback, FreeHandle, Start, Put, SameLayout, OnlyTrans;
    EndIs(w, t, net);
    if net(w.tick) {
      var (tr, d) := (w.trans[t], w.durable);
      var ended := tr.(handle := Some(tr.handle.value.(pending := [])));
      PutTwice(w, t, ended, tr.(handle := None), d, d, w.tick + 1, w.tick + 1);
      FreeHandlePut(Put(w, t, ended, d, w.tick + 1), t);
      var w2 := Put(w, t, tr.(handle := None), d, w.tick + 1);
      PutTwice(w, t, tr.(handle := None), tr.(handle := Some(Handle(tr.tpb, [], false))), d, d, w.tick + 1, w.tick + 2);
      RestartPut(w2, t, net);
      PutTick(w, t, tr.(handle := None), d, w.tick + 1);
    }
  }

  /** Retaining commit and rollback keep the handle, and its locks. */
  lemma RetainingIs(w: World, t: Addr, net: Net)
    requires t in w.trans && w.trans[t].handle.Some?
    ensures var (tr, h) := (w.trans[t], w.trans[t].handle.value);
            var kept := tr.(handle := Some(Handle(h.tpb, [], true)));
            && TryCommitRetaining(w, t, net) == (if net(w.tick)
               then (true, Put(w, t, kept, w.durable + h.pending, w.tick + 1)) else (false, Tick(w)))
            && TryRollbackRetaining(w, t, net) ==
                 (if net(w.tick) then (true, Put(w, t, kept, w.durable, w.tick + 1)) else (false, Tick(w)))
  {
    EndIs(w, t, net);
    var (tr, h) := (w.trans[t], w.trans[t].handle.value);
    var ended := tr.(handle := Some(h.(pending := [])));
    UpdateTwice(w.trans, t, ended, tr.(handle := Some(Handle(h.tpb, [], true))));
    hide TryCommit, TryRollback;
  }

  // ------------------------------------------------------------ idle release

  /** The release goes past its guards only when no live query or batch refers to the transaction ... */
  lemma IdleIsUnused(w: World, t: Addr, aux: Option<Addr>)
    requires Inv(w, aux) && t in w.trans && Idle(w.trans[t])
    ensures forall q :: q in w.queries ==> w.queries[q].trans != Some(t) && w.queries[q].reg != Some(t)
    ensures forall b :: b in w.batches ==> w.batches[b].trans != Some(t) && w.batches[b].reg != Some(t)
  {
    forall q | q in w.queries ensures QueryEnrolled(w.trans, w.queries[q], q) {}
    forall b | b in w.batches ensures BatchEnrolled(w.trans, w.batches[b], b) {}
  }

  /** ... and makes durable exactly what was pending: nothing, if nothing ran since the retaining commit. */
  lemma ReleaseIsSafe(w: World, t: Addr, net: Net, aux: Option<Addr>)
    requires Inv(w, aux) && t in w.trans
    ensures var r := ReleaseIfIdle(w, t, net);
            if Idle(w.trans[t]) then
              && r.durable == w.durable + (if net(w.tick) then Pending(w.trans, t) else [])
              && t in r.trans && !r.trans[t].retain
            else r == w
  {
    hide Inv, CommitRestart, SameLayout, OnlyTrans;
    if Idle(w.trans[t]) {
      IsWorking(w, t, aux);
      CommitRestartIs(SetT(w, t, w.trans[t].(retain := false)), t, net);
    }
  }

  /** Closing a cursor calls the release, but never gets past its guards: the query is still enrolled. */
  lemma ClosingCommitsNothing(w: World, q: Addr, net: Net, aux: Option<Addr>)
    requires Inv(w, aux) && q in w.queries
    ensures var r := CursorClosed(w, q, net);
            && r.durable == w.durable && r.tick == w.tick
            && forall u :: u in w.trans ==>
                 u in r.trans && r.trans[u].handle == w.trans[u].handle && r.trans[u].retain == w.trans[u].retain
  {
    hide Inv, CursorClosed, SameLayout;
    CloseNeverReleases(w, q, net, aux);
  }

  // ------------------------------------------------------------ hard commit and rollback for retaining ones

  /** Two worlds that agree on everything but the server calls made and what `t` keeps of its handle. */
  ghost predicate AgreeBut(a: World, b: World, t: Addr) {
    && Same(a.links, b.links) && Same(a.queries, b.queries) && Same(a.batches, b.batches) && Same(a.stmts, b.stmts)
    && a.durable == b.durable && a.next == b.next && a.fault == b.fault && a.trans.Keys == b.trans.Keys
    && forall u :: u in a.trans && u != t ==> Same(a.trans[u], b.trans[u])
  }

  lemma PutsAgree(w: World, t: Addr, a: Trans, b: Trans, d: seq<Work>, k: nat, n: nat)
    requires t in w.trans
    ensures AgreeBut(Put(w, t, a, d, k), Put(w, t, b, d, n), t)
    ensures Put(w, t, a, d, k).trans == w.trans[t := a] && Put(w, t, a, d, k).durable == d
    ensures Put(w, t, b, d, n).trans == w.trans[t := b] && Put(w, t, b, d, n).durable == d
  {}

  lemma AgreeSelf(w: World, t: Addr)
    ensures AgreeBut(w, w, t)
  {}

  /** Where nothing needs to be retained, commit and restart does what a retaining commit does, and lets
      the locks go; if the restart fails after the commit, the work is durable all the same and the handle
      is gone, to be started again by the next use. */
  lemma HardCommitRefines(w: World, t: Addr, net: Net, aux: Option<Addr>)
    requires Inv(w, aux) && t in w.trans && w.trans[t].handle.Some?
    ensures var (hard, h) := CommitRestart(w, t, net);
            var (soft, s) := TryCommitRetaining(w, t, net);
            && t in h.trans && t in s.trans && AgreeBut(h, s, t)
            && (soft <==> net(w.tick)) && (hard <==> soft && net(w.tick + 1) && net(w.tick + 2))
            && (!soft ==> h == s)
            && (soft ==>
                 Pending(h.trans, t) == Pending(s.trans, t) == [] && h.durable == w.durable + Pending(w.trans, t))
            && (soft ==> s.trans[t].handle == Some(Handle(w.trans[t].handle.value.tpb, [], true)))
            && (hard ==> h.trans[t].handle == Some(Handle(w.trans[t].tpb, [], false)))
            && (soft && !hard ==> h.trans[t].handle.None?)
  {
    hide Inv, CommitRestart, TryCommitRetaining, SameLayout, OnlyTrans, Put, AgreeBut;
    IsWorking(w, t, aux);
    CommitRestartIs(w, t, net);
    RetainingIs(w, t, net);
    var (tr, d) := (w.trans[t], w.durable + w.trans[t].handle.value.pending);
    var again := tr.(handle := Some(Handle(tr.tpb, [], false)), retain := false);
    var kept := tr.(handle := Some(Handle(tr.handle.value.tpb, [], true)));
    PutsAgree(w, t, if net(w.tick + 1) && net(w.tick + 2) then again else tr.(handle := None), kept, d,
              if net(w.tick + 1) then w.tick + 3 else w.tick + 2, w.tick + 1);
    AgreeSelf(Tick(w), t);
  }

  /** The same for rollback; here retain_committed is left as it was. */
  lemma HardRollbackRefines(w: World, t: Addr, net: Net, aux: Option<Addr>)
    requires Inv(w, aux) && t in w.trans && w.trans[t].handle.Some?
    ensures var (hard, h) := RollbackRestart(w, t, net);
            var (soft, s) := TryRollbackRetaining(w, t, net);
            && t in h.trans && t in s.trans && AgreeBut(h, s, t)
            && (soft <==> net(w.tick)) && (hard <==> soft && net(w.tick + 1))
            && (!soft ==> h == s)
            && (soft ==> Pending(h.trans, t) == Pending(s.trans, t) == [] && h.durable == w.durable)
            && (hard ==> h.trans[t].handle == Some(Handle(w.trans[t].tpb, [], false)))
            && (soft && !hard ==> h.trans[t].handle.None?)
            && h.trans[t].retain == w.trans[t].retain
  {
    hide Inv, RollbackRestart, TryRollbackRetaining, SameLayout, OnlyTrans, Put, AgreeBut, Working, CommitRestart,
         TryCommitRetaining;
    IsWorking(w, t, aux);
    RollbackRestartIs(w, t, net);
    RetainingIs(w, t, net);
    var tr := w.trans[t];
    var again := tr.(handle := Some(Handle(tr.tpb, [], false)));
    var kept := tr.(handle := Some(Handle(tr.handle.value.tpb, [], true)));
    PutsAgree(w, t, if net(w.tick + 1) then again else tr.(handle := None), kept, w.durable, w.tick + 2, w.tick + 1);
    AgreeSelf(Tick(w), t);
  }

  /** The hard path is open exactly when no live query or batch refers to the transaction and the counter
      is 0 ... */
  lemma HardPathOpen(w: World, t: Addr, aux: Option<Addr>)
    requires Inv(w, aux) && t in w.trans
    ensures NothingToRetain(w.trans[t]) <==>
              && w.trans[t].count == 0
              && (forall q :: q in w.queries ==> w.queries[q].trans != Some(t)) &&
                 (forall b :: b in w.batches ==> w.batches[b].trans != Some(t))
  {
    forall q | q in w.queries ensures QueryEnrolled(w.trans, w.queries[q], q) {}
    forall b | b in w.batches ensures BatchEnrolled(w.trans, w.batches[b], b) {}
    assert RegistryOk(w.trans[t], t, w.queries) && BatchRegistryOk(w.trans[t], t, w.batches);
    var tr := w.trans[t];
    if tr.queries != [] { assert tr.queries[0] in w.queries; }
    if tr.batches != [] { assert tr.batches[0] in w.batches; }
  }

  /** ... and is then taken; otherwise the handle stays, with its locks, and a retaining commit that succeeds also
      marks the transaction for a later release, while a retaining rollback loses what is pending. */
  lemma HardPathTaken(w: World, t: Addr, net: Net)
    requires t in w.trans && w.trans[t].handle.Some?
    ensures NothingToRetain(w.trans[t]) ==>
              EndSwitch(w, t, CommitRet, net) == CommitRestart(w, t, net) &&
              EndSwitch(w, t, RollbackRet, net) == RollbackRestart(w, t, net)
    ensures !NothingToRetain(w.trans[t]) ==>
              var (tr, h) := (w.trans[t], w.trans[t].handle.value);
              EndSwitch(w, t, CommitRet, net) ==
                if net(w.tick) then (true, Put(w, t, tr.(handle := Some(Handle(h.tpb, [], true)), retain := true),
                                               w.durable + h.pending, w.tick + 1))
                else (false, Tick(w))
    ensures !NothingToRetain(w.trans[t]) ==>
              var (tr, h) := (w.trans[t], w.trans[t].handle.value);
              EndSwitch(w, t, RollbackRet, net) ==
                if net(w.tick) then (true, Put(w, t, tr.(handle := Some(Handle(h.tpb, [], true))), w.durable,
                                               w.tick + 1))
                else (false, Tick(w))
  {
    hide TryCommitRetaining, TryRollbackRetaining, CommitRestart, RollbackRestart, SameLayout, OnlyTrans;
    RetainingIs(w, t, net);
    var (tr, h) := (w.trans[t], w.trans[t].handle.value);
    UpdateTwice(w.trans, t, tr.(handle := Some(Handle(h.tpb, [], true))),
                tr.(handle := Some(Handle(h.tpb, [], true)), retain := true));
  }

  // ------------------------------------------------------------ default transactions

  /** The commit that freeing a result can cause reaches only the default transaction of the query's own,
      live link, and only while no query of that transaction has an open cursor. */
  lemma CommitOnFreeIsContained(w: World, q: Addr, had: bool, net: Net, u: Addr, aux: Option<Addr>)
    requires Inv(w, aux) && q in w.queries && !w.wrapped
    requires Changed(w, CommitOnFree(w, q, had, net), u)
    ensures w.trans[u].isDefault && w.queries[q].trans == Some(u) && had
    ensures w.queries[q].link in w.links && w.trans[u].link == Some(w.queries[q].link)
    ensures OpenOn(w.queries, u) == {}
  {
    QueryLive(w, q, aux);
    var t := w.queries[q].trans;
    if t.Some? { LinkLive(w, t.value, aux); }
    CommitTouches(w, q, had, net, u);
    forall p | p in OpenOn(w.queries, u) ensures false { ZeroMeansNoCursor(w, u, p, aux); }
  }

  ghost predicate Changed(w: World, r: World, u: Addr) { u in w.trans && u in r.trans && r.trans[u] != w.trans[u] }

  lemma CommitTouches(w: World, q: Addr, had: bool, net: Net, u: Addr)
    requires q in w.queries && (w.queries[q].trans.Some? ==> w.queries[q].trans.value in w.trans)
    requires Changed(w, CommitOnFree(w, q, had, net), u)
    ensures w.queries[q].trans == Some(u) && w.trans[u].isDefault && w.trans[u].count == 0 && had &&
            w.trans[u].handle.Some?
  {}

  /** A link has one default transaction at most, and the walk of its tr_list finds it. */
  lemma OneDefaultEach(w: World, l: Addr, t: Addr, aux: Option<Addr>)
    requires Inv(w, aux) && l in w.links && t in w.trans
    ensures FirstDefault(w.trans, w.links[l].trs) == Some(t) <==> w.trans[t].isDefault && w.trans[t].link == Some(l)
  {
    DefaultFound(w, l, aux);
    assert OneDefault(w.trans);
  }

  // ------------------------------------------------------------ parameter blocks

  /** Every live handle was started with the stored block, unless fbird_trans stored other bytes, which it does
      not where the run is faithful to it; and any restart uses the stored block. */
  lemma BlockIsStored(w: World, t: Addr, net: Net, aux: Option<Addr>)
    requires Inv(w, aux) && t in w.trans
    ensures w.trans[t].handle.Some? && (w.trans[t].isDefault || w.trans[t].exact || t in w.rules.faithful) ==>
              w.trans[t].handle.value.tpb == w.trans[t].tpb
    ensures RestartFromTpb(w, t, net).0 ==> OnBlock(w.trans[t], RestartFromTpb(w, t, net).1, t)
  {
    hide Inv, RestartFromTpb, SameLayout, OnlyTrans;
    LinkLive(w, t, aux);
    OnStored(w, t, aux);
    if w.trans[t].link.Some? { RestartPut(w, t, net); } else { RestartNeedsLink(w, t, net); }
  }

  lemma OnStored(w: World, t: Addr, aux: Option<Addr>)
    requires Inv(w, aux) && t in w.trans
    ensures w.trans[t].handle.Some? && (w.trans[t].isDefault || w.trans[t].exact || t in w.rules.faithful) ==>
              w.trans[t].handle.value.tpb == w.trans[t].tpb
  {
    assert TransOnLink(w.links, w.trans[t], t, aux);
  }

  lemma RestartsUseStored(w: World, t: Addr, net: Net)
    requires Working(w, t)
    ensures CommitRestart(w, t, net).0 ==> OnBlock(w.trans[t], CommitRestart(w, t, net).1, t)
    ensures RollbackRestart(w, t, net).0 ==> OnBlock(w.trans[t], RollbackRestart(w, t, net).1, t)
  {
    hide CommitRestart, RollbackRestart, SameLayout, OnlyTrans;
    CommitRestartIs(w, t, net);
    RollbackRestartIs(w, t, net);
  }

  lemma RestartNeedsLink(w: World, t: Addr, net: Net)
    requires t in w.trans && w.trans[t].link.None?
    ensures !RestartFromTpb(w, t, net).0
  {}

  /** A handle just started with the block the transaction has stored. */
  ghost predicate OnBlock(tr: Trans, r: World, t: Addr) {
    t in r.trans && r.trans[t].tpb == tr.tpb && r.trans[t].handle == Some(Handle(tr.tpb, [], false))
  }

  // ------------------------------------------------------------ statement handles

  /** `x` is `q` or hangs below it in the tree of results. */
  ghost predicate Under(Q: map<Addr, Query>, x: Addr, q: Addr)
    decreases x
  {
    x == q || (x in Q && Q[x].parent.Some? && Q[x].parent.value < x && Under(Q, Q[x].parent.value, q))
  }

  /** Every query that holds a live handle is under the one query that owns it. */
  lemma {:induction false} HoldersAreUnderOwner(w: World, q: Addr, s: Addr, x: Addr, aux: Option<Addr>)
    requires Inv(w, aux) && Owner(w.queries, q, s) && x in w.queries && w.queries[x].stmt == Some(s)
    ensures Under(w.queries, x, q)
    decreases x
  {
    if x != q {
      assert !Owner(w.queries, x, s);
      assert HoldsLive(w.queries[x], w.stmts) && ParentOk(w.queries, w.queries[x], x);
      ParentOther(w.queries, x);
      HoldersAreUnderOwner(w, q, s, w.queries[x].parent.value, aux);
    }
  }

  lemma EveryHandleIsOwned(w: World, s: Addr, aux: Option<Addr>)
    requires Inv(w, aux) && s in w.stmts
    ensures exists q :: Owner(w.queries, q, s) && forall p :: Owner(w.queries, p, s) ==> p == q
  {
    assert Owned(w.queries, s);
    var q :| Owner(w.queries, q, s);
    assert forall p :: Owner(w.queries, p, s) ==> p == q;
  }

  /** When a handle is freed it is live, and afterwards neither the server nor any live query has it. */
  lemma FreedOnce(w: World, q: Addr, s: Addr, aux: Option<Addr>)
    requires Inv(w, aux) && Owner(w.queries, q, s) && w.queries[q].children == []
    ensures s in w.stmts
    ensures var r := DropStmt(w, q); s !in r.stmts && forall x :: x in r.queries ==> r.queries[x].stmt != Some(s)
  {
    assert HoldsLive(w.queries[q], w.stmts);
    forall x | x in w.queries && w.queries[x].stmt == Some(s) ensures x == q {
      SoleHolder(w.queries, w.stmts, q, s, x);
    }
    hide Inv;
  }

  // ------------------------------------------------------------ results

  /** The exits of an execution that would free a result still enrolled in its registry are never taken. */
  lemma ResultIsAlwaysMade(w: World, q: Addr, aux: Option<Addr>)
    requires Inv(w, aux) && q in w.queries && w.queries[q].trans.Some?
    ensures MakeResult(w, q).0 == Result(w.next)
  {
    ColumnsMatch(w, q, aux);
  }
}
