/** How transactions begin and how batches come and go, exactly. */
module Starts {
  import opened State
  import opened Transactions
  import opened Queries
  import opened Steps
  import opened Invariant
  import opened TransactionsKeep
  import opened StructureKeeps
  import opened LinksKeep
  import opened ExecKeeps
  import opened Outcomes
  import opened StepsKeep
  import opened Executions

  // ------------------------------------------------------------ explicit transactions

  /** A transaction made by a call: explicit, on the link, started on `block`, with nothing pending, no locks, no mark,
      and nothing enrolled. */
  ghost predicate Begins(w: World, t: Addr, l: Addr, block: seq<Byte>) {
    && t in w.trans && !w.trans[t].isDefault && w.trans[t].link == Some(l) && w.trans[t].count == 0
    && w.trans[t].handle == Some(Handle(block, [], false)) && !w.trans[t].retain
    && w.trans[t].queries == [] && w.trans[t].batches == []
  }

  /** A start makes a transaction exactly when the server accepts it; the new one is last on the tr_list of its link,
      and every other list and transaction is as it was. */
  lemma StartsExactly(w: World, l: Addr, started: seq<Byte>, stored: seq<Byte>, net: Net)
    requires Inv(w, None) && l in w.links
    ensures var (r, t) := (StartOn(w, l, started, stored, net), w.next);
            && t !in w.trans && Untouched(w, r) && r.queries == w.queries && r.batches == w.batches
            && if net(w.tick) then
                 && Begins(r, t, l, started) && r.trans[t].tpb == stored
                 && r.trans.Keys == w.trans.Keys + {t}
                 && r.links == w.links[l := w.links[l].(trs := w.links[l].trs + [Some(t)])]
               else r == Tick(w)
  {
    hide Inv;
    FreshAddress(w, None);
  }

  /** SET TRANSACTION as SQL gives a new transaction on the server's own block, and leaves the statement where it is. */
  lemma SetTransactionStarts(w: World, q: Addr, t: Addr, input: Input, net: Net, aux: Option<Addr>)
    requires Inv(w, aux) && Ready(w, q, t) && w.queries[q].kind.SetTrans? && w.queries[q].link in w.links
    requires input.args >= w.queries[q].inputs
    ensures var ((reply, r), l) := (Exec(w, q, input, net), w.queries[q].link);
            && Untouched(w, r) && Stays(r, reply, q, t)
            && if net(w.tick) then
                 && reply == NewTransaction(w.next) && w.next !in w.trans && Begins(r, w.next, l, [])
                 && r.links == w.links[l := w.links[l].(trs := w.links[l].trs + [Some(w.next)])]
               else reply == Failure
  {
    hide Inv, Shut, SetTransaction, Untouched, Stays, Begins;
    ReadyFirst(w, q, t, input.dflt, net);
    if net(w.tick) { SetStarts(w, q, w.queries[q].link, t, net, aux); } else { SetFails(w, q, t, net, aux); }
  }

  lemma SetStarts(w: World, q: Addr, l: Addr, t: Addr, net: Net, aux: Option<Addr>)
    requires Inv(w, aux) && Ready(w, q, t) && l in w.links && net(w.tick)
    ensures var (reply, r) := SetTransaction(w, q, l, net);
            && reply == NewTransaction(w.next) && w.next !in w.trans && Begins(r, w.next, l, [])
            && Untouched(w, r) && Stays(r, reply, q, t)
            && Same(r.links, w.links[l := w.links[l].(trs := w.links[l].trs + [Some(w.next)])])
  {
    hide Inv, Shut;
    FreshAddress(w, aux);
  }

  lemma SetFails(w: World, q: Addr, t: Addr, net: Net, aux: Option<Addr>)
    requires Inv(w, aux) && Ready(w, q, t) && w.queries[q].link in w.links && !net(w.tick)
    ensures var (reply, r) := SetTransaction(w, q, w.queries[q].link, net);
            reply == Failure && Untouched(w, r) && Stays(r, reply, q, t)
  {
    hide Inv, Shut, Untouched, Stays, SameLayout, OnlyFlags;
    TickKeeps(w, aux);
    ShutUntouched(Tick(w), q, net, aux);
    ShutStays(Tick(w), Failure, q, t, net, aux);
    TickUntouched(w);
    UntouchedChain(w, Tick(w), Shut(Tick(w), q, net));
  }

  // ------------------------------------------------------------ default transactions

  /** The default transaction of a link, if it has one. */
  ghost predicate DefaultIn(w: World, t: Addr, l: Addr) {
    t in w.trans && w.trans[t].isDefault && w.trans[t].link == Some(l)
  }

  /** A started default transaction is used as it is, without a call to the server. */
  lemma DefaultIsUsed(w: World, l: Addr, t: Addr, dflt: seq<Byte>, net: Net, aux: Option<Addr>)
    requires Inv(w, aux) && l in w.links && DefaultIn(w, t, l) && w.trans[t].handle.Some?
    ensures DefTrans(w, l, dflt, net) == (Some(t), w)
  {
    hide Inv, SameLayout, OnlyTrans;
    DefaultFound(w, l, aux);
    OneDefaultEach(w, l, t, aux);
  }

  /** An ended one is started again where it is, on the block of the current settings. */
  lemma DefaultRestarts(w: World, l: Addr, t: Addr, dflt: seq<Byte>, net: Net, aux: Option<Addr>)
    requires Inv(w, aux) && l in w.links && DefaultIn(w, t, l) && w.trans[t].handle.None?
    ensures var (found, r) := DefTrans(w, l, dflt, net);
            if net(w.tick) then
              && found == Some(t) && r.tick == w.tick + 1 && Elsewhere(w, r, t)
              && Same(r.trans, w.trans[t := w.trans[t].(handle := Some(Handle(dflt, [], false)), tpb := dflt)])
              && Same(r.links, w.links) && Same(r.queries, w.queries)
            else found.None? && r == Tick(w)
  {
    hide Inv, DefTrans;
    DefaultFound(w, l, aux);
    OneDefaultEach(w, l, t, aux);
    FoundRestarts(w, l, t, dflt, net);
  }

  lemma FoundRestarts(w: World, l: Addr, t: Addr, dflt: seq<Byte>, net: Net)
    requires Walkable(w, l) && FirstDefault(w.trans, w.links[l].trs) == Some(t) && t in w.trans
    requires w.trans[t].handle.None?
    ensures var (found, r) := DefTrans(w, l, dflt, net);
            if net(w.tick) then
              && found == Some(t) && r.tick == w.tick + 1 && Elsewhere(w, r, t)
              && Same(r.trans, w.trans[t := w.trans[t].(handle := Some(Handle(dflt, [], false)), tpb := dflt)])
              && Same(r.links, w.links) && Same(r.queries, w.queries) && r.durable == w.durable
            else found.None? && r == Tick(w)
  {
    hide SameLayout, OnlyTrans;
  }

  lemma {:induction false} FoundLike(T: map<Addr, Trans>, R: map<Addr, Trans>, trs: seq<Option<Addr>>)
    requires T.Keys == R.Keys && forall u :: u in T ==> R[u].isDefault == T[u].isDefault
    ensures FirstDefault(R, trs) == FirstDefault(T, trs)
  {
    if trs != [] { FoundLike(T, R, trs[1..]); }
  }

  /** A link without one gets one, last on its tr_list, where it stays even if it cannot be started. */
  lemma DefaultIsMade(w: World, l: Addr, dflt: seq<Byte>, net: Net, aux: Option<Addr>)
    requires Inv(w, aux) && l in w.links && forall u :: u in w.trans ==> !DefaultIn(w, u, l)
    ensures var ((found, r), t) := (DefTrans(w, l, dflt, net), w.next);
            && t !in w.trans && Untouched(w, r) && DefaultIn(r, t, l) &&
               found == (if net(w.tick) then Some(t) else None)
            && r.trans[t].handle == (if net(w.tick) then Some(Handle(dflt, [], false)) else None)
            && Same(r.queries, w.queries)
            && Same(r.links, w.links[l := w.links[l].(trs := w.links[l].trs + [Some(t)])])
  {
    hide Inv, SameLayout, OnlyTrans, Untouched, NewTrans;
    FreshAddress(w, aux);
    DefaultFound(w, l, aux);
    var tr := FreshTrans(l, true, [], true, None);
    NewTransIs(w, l, tr);
    var w1 := NewTrans(w, l, tr);
    assert DefTrans(w, l, dflt, net) == StartDefault(w1, w.next, dflt, net);
    StartedUntouched(w, w1, w.next, dflt, net);
  }

  lemma NewTransIs(w: World, l: Addr, tr: Trans)
    requires l in w.links
    ensures var r := NewTrans(w, l, tr);
            && Same(r.trans, w.trans[w.next := tr]) && r.tick == w.tick && Same(r.queries, w.queries)
            && r.durable == w.durable
            && Same(r.links, w.links[l := w.links[l].(trs := w.links[l].trs + [Some(w.next)])])
  {}

  lemma StartedUntouched(w: World, w1: World, t: Addr, dflt: seq<Byte>, net: Net)
    requires t !in w.trans && t in w1.trans && w1.trans[t].handle.None? && w1.durable == w.durable
    requires Same(w1.trans, w.trans[t := w1.trans[t]])
    ensures var (found, r) := StartDefault(w1, t, dflt, net);
            && Untouched(w, r) && Same(r.links, w1.links) && Same(r.queries, w1.queries) && t in r.trans
            && found == (if net(w1.tick) then Some(t) else None)
            && r.trans[t].handle == (if net(w1.tick) then Some(Handle(dflt, [], false)) else None)
            && SameSite(w1.trans[t], r.trans[t])
  {
    hide SameLayout, OnlyTrans;
  }

  /** A statement whose default transaction was ended by autocommit gets the same one back, started again, when it is
      executed; if the server refuses, the statement is on no transaction. */
  lemma RehomesExactly(w: World, q: Addr, t: Addr, dflt: seq<Byte>, net: Net)
    requires Inv(w, None) && Rehomes(w, q) && w.queries[q].trans == Some(t) && w.queries[q].link in w.links
    ensures var (ok, r) := EnsureDefault(w, q, dflt, net);
            && ok == net(w.tick) && r.tick == w.tick + 1 && Elsewhere(w, r, t) && t in r.trans && q in r.queries
            && r.queries[q] == w.queries[q].(trans := if ok then Some(t) else None, reg := if ok then Some(t) else None)
            && r.trans[t].handle == (if ok then Some(Handle(dflt, [], false)) else None)
            && r.trans[t].queries == (if ok then [q] else []) + Without(w.trans[t].queries, q)
  {
    hide Inv, Rehome, QueryOnLink, Elsewhere, Without, FirstDefault;
    QueryLive(w, q, None);
    IsDefaultOf(w, q, t);
    var l := w.queries[q].link;
    DefaultFound(w, l, None);
    OneDefaultEach(w, l, t, None);
    RehomesFound(w, q, l, t, dflt, net);
  }

  lemma RehomesFound(w: World, q: Addr, l: Addr, t: Addr, dflt: seq<Byte>, net: Net)
    requires q in w.queries && w.queries[q].trans == w.queries[q].reg == Some(t) && t in w.trans
    requires l in w.links && Walkable(w, l) && FirstDefault(w.trans, w.links[l].trs) == Some(t)
    requires w.trans[t].handle.None?
    ensures var (ok, r) := Rehome(w, q, l, dflt, net);
            && ok == net(w.tick) && r.tick == w.tick + 1 && Elsewhere(w, r, t) && t in r.trans && q in r.queries
            && r.queries[q] == w.queries[q].(trans := if ok then Some(t) else None, reg := if ok then Some(t) else None)
            && r.trans[t].handle == (if ok then Some(Handle(dflt, [], false)) else None)
            && r.trans[t].queries == (if ok then [q] else []) + Without(w.trans[t].queries, q)
  {
    hide Unenroll, Enroll, DefTrans, Without, FirstDefault, Walkable, Elsewhere;
    UnenrolledIs(w, q, t);
    var w0 := Unenroll(w, q);
    FoundLike(w.trans, w0.trans, w.links[l].trs);
    SameWalk(w, w0, l);
    FoundRestarts(w0, l, t, dflt, net);
    LeftOut(w, w0, q, t);
    if net(w.tick) { BackIn(w, w0, DefTrans(w0, l, dflt, net).1, q, t, dflt); }
  }

  lemma SameWalk(w: World, r: World, l: Addr)
    requires Walkable(w, l) && Same(r.links, w.links) && r.trans.Keys == w.trans.Keys
    ensures Walkable(r, l) && l in w.links
  {}

  /** The query has left its ended transaction ... */
  ghost predicate Out(w: World, w0: World, q: Addr, t: Addr) {
    && q in w.queries && t in w.trans
    && Same(w0.queries, w.queries[q := w.queries[q].(trans := None, reg := None)])
    && Same(w0.trans, w.trans[t := w.trans[t].(queries := Without(w.trans[t].queries, q))])
    && w0.durable == w.durable
  }

  lemma LeftOut(w: World, w0: World, q: Addr, t: Addr)
    requires Out(w, w0, q, t)
    ensures Elsewhere(w, Tick(w0), t) && t in w0.trans && q in w0.queries
    ensures w0.queries[q] == w.queries[q].(trans := None, reg := None)
    ensures w0.trans[t].queries == [] + Without(w.trans[t].queries, q) && w0.trans[t].handle == w.trans[t].handle
  {
    hide Without;
  }

  /** ... and comes back to it. */
  lemma BackIn(w: World, w0: World, w1: World, q: Addr, t: Addr, dflt: seq<Byte>)
    requires Out(w, w0, q, t) && w1.durable == w0.durable && Same(w1.queries, w0.queries)
    requires t in w0.trans &&
             Same(w1.trans, w0.trans[t := w0.trans[t].(handle := Some(Handle(dflt, [], false)), tpb := dflt)])
    ensures var r := Enroll(w1, q, t);
            && Elsewhere(w, r, t) && t in r.trans && q in r.queries && r.tick == w1.tick
            && r.queries[q] == w.queries[q].(trans := Some(t), reg := Some(t))
            && r.trans[t].handle == Some(Handle(dflt, [], false))
            && r.trans[t].queries == [q] + Without(w.trans[t].queries, q)
  {
    hide Without;
  }

  lemma IsDefaultOf(w: World, q: Addr, t: Addr)
    requires Inv(w, None) && Rehomes(w, q) && w.queries[q].trans == Some(t)
    ensures DefaultIn(w, t, w.queries[q].link)
  {
    QueryLive(w, q, None);
    LinkLive(w, t, None);
    assert TransOnLink(w.links, w.trans[t], t, None);
  }

  lemma UnenrolledIs(w: World, q: Addr, t: Addr)
    requires q in w.queries && w.queries[q].reg == Some(t) && t in w.trans
    ensures var r := Unenroll(w, q);
            && Same(r.queries, w.queries[q := w.queries[q].(trans := None, reg := None)])
            && Same(r.trans, w.trans[t := w.trans[t].(queries := Without(w.trans[t].queries, q))])
            && r.tick == w.tick && r.durable == w.durable && Same(r.links, w.links)
  {
    hide Without;
  }

  // ------------------------------------------------------------ batches

  /** A batch is made exactly of a statement with parameters, on the transaction that is named, or else on that of the
      statement, when it has started and the server accepts; nothing else changes. */
  lemma BatchMade(w: World, q: Addr, explicit: Option<Addr>, net: Net)
    requires Inv(w, None) && q in w.queries && (explicit.Some? ==> explicit.value in w.trans)
    ensures var (r, b, target) := (BatchCreate(w, q, explicit, net), w.next,
                                   if explicit.Some? then explicit else w.queries[q].trans);
            && b !in w.batches && Untouched(w, r) && r.queries == w.queries && r.links == w.links
            && (b in r.batches <==>
                  && w.queries[q].stmt.Some? && w.queries[q].inputs > 0 && target.Some?
                  && target.value in w.trans && w.trans[target.value].handle.Some? && net(w.tick))
            && (b in r.batches ==>
                  && r.batches == w.batches[b := Batch(target, target, q, true)] && target.value in w.trans
                  && r.trans == w.trans[target.value := w.trans[target.value].(batches :=
                       [b] + w.trans[target.value].batches)])
            && (b !in r.batches ==> r == w.(tick := r.tick))
  {
    hide Inv, QueryOnLink, EnlistBatch, Untouched;
    QueryLive(w, q, None);
    FreshBatch(w);
    TickUntouched(w);
    var target := if explicit.Some? then explicit else w.queries[q].trans;
    Unchanged(w);
    if target.Some? && target.value in w.trans {
      EnlistedIs(Tick(w), q, target.value);
      UntouchedChain(w, Tick(w), EnlistBatch(Tick(w), q, target.value));
    }
  }

  lemma EnlistedIs(w: World, q: Addr, t: Addr)
    requires t in w.trans
    ensures var r := EnlistBatch(w, q, t);
            && Untouched(w, r) && Same(r.queries, w.queries) && Same(r.links, w.links)
            && Same(r.batches, w.batches[w.next := Batch(Some(t), Some(t), q, true)])
            && Same(r.trans, w.trans[t := w.trans[t].(batches := [w.next] + w.trans[t].batches)])
  {}

  lemma FreshBatch(w: World)
    requires Inv(w, None)
    ensures w.next !in w.batches
  {}

  /** After an accepted cancel, executing the batch does nothing; a refused one changes nothing. */
  lemma CancelledNeverRuns(w: World, b: Addr, net: Net, again: Net)
    requires b in w.batches
    ensures var r := BatchCancel(w, b, net);
            && Untouched(w, r) && b in r.batches && r.batches[b] == w.batches[b].(wrapper := r.batches[b].wrapper)
            && (r.batches[b].wrapper <==> w.batches[b].wrapper && !net(w.tick))
            && (!r.batches[b].wrapper ==> BatchExecute(r, b, again) == r)
            && (r.batches[b].wrapper ==> r == Tick(w))
  {}

  /** A freed batch is gone, from the memory and from its list, which keeps its order; without its statement nothing
      else changes, and no work is committed or lost. */
  lemma BatchGone(w: World, b: Addr, net: Net)
    requires Inv(w, None) && b in w.batches
    ensures var (r, home) := (BatchFree(w, b, false, net), w.batches[b].trans);
            && r.batches == w.batches - {b} && Untouched(w, r) && r.queries == w.queries && r.tick == w.tick
            && (home.None? ==> r.trans == w.trans)
            && (home.Some? ==>
                  && home.value in w.trans && b !in Without(w.trans[home.value].batches, b)
                  && r.trans == w.trans[home.value := w.trans[home.value].(batches :=
                       Without(w.trans[home.value].batches, b))])
  {
    hide Inv, Without, RemoveBatch, Untouched;
    BatchListed(w, b);
    RemovedBatchIs(w, b);
    if w.batches[b].reg.Some? { WithoutNoDup(w.trans[w.batches[b].reg.value].batches, b); }
  }

  lemma BatchListed(w: World, b: Addr)
    requires Inv(w, None) && b in w.batches
    ensures w.batches[b].trans == w.batches[b].reg
    ensures w.batches[b].reg.Some? ==>
              w.batches[b].reg.value in w.trans && NoDup(w.trans[w.batches[b].reg.value].batches)
  {
    BatchedOf(w);
    hide Inv;
    if w.batches[b].reg.Some? {
      assert BatchRegistryOk(w.trans[w.batches[b].reg.value], w.batches[b].reg.value, w.batches);
    }
  }

  lemma RemovedBatchIs(w: World, b: Addr)
    requires b in w.batches && (w.batches[b].reg.Some? ==> w.batches[b].reg.value in w.trans)
    ensures var (r, home) := (RemoveBatch(w, b), w.batches[b].reg);
            && Same(r.batches, w.batches - {b}) && Untouched(w, r) && Same(r.queries, w.queries) && r.tick == w.tick
            && (home.None? ==> Same(r.trans, w.trans))
            && (home.Some? ==>
                  Same(r.trans, w.trans[home.value := w.trans[home.value].(batches :=
                    Without(w.trans[home.value].batches, b))]))
  {
    hide Without;
  }
}
