/** fbird_transaction.c and the cursor helpers of php_fbird_includes.h, as functions on a World. */
module Transactions {
  import opened State

  /** fbt_commit: on success everything pending becomes durable; on failure nothing changes. */
  function TryCommit(w: World, t: Addr, net: Net): (r: (bool, World))
    ensures SameLayout(w, r.1) && Same(r.1.queries, w.queries)
    ensures OnlyTrans(w.trans, r.1.trans, t)
  {
    if t !in w.trans || w.trans[t].handle.None? then (false, Fault(w))
    else if !net(w.tick) then (false, Tick(w))
    else
      var h := w.trans[t].handle.value;
      (true, SetT(Tick(w).(durable := w.durable + h.pending), t, w.trans[t].(handle := Some(h.(pending := [])))))
  }

  /** fbt_rollback. */
  function TryRollback(w: World, t: Addr, net: Net): (r: (bool, World))
    ensures SameLayout(w, r.1) && Same(r.1.queries, w.queries)
    ensures OnlyTrans(w.trans, r.1.trans, t)
  {
    if t !in w.trans || w.trans[t].handle.None? then (false, Fault(w))
    else if !net(w.tick) then (false, Tick(w))
    else (true, SetT(Tick(w), t, w.trans[t].(handle := Some(w.trans[t].handle.value.(pending := [])))))
  }

  /** fbt_commit_retaining: durable like a commit, but the handle stays and so do its locks. */
  function TryCommitRetaining(w: World, t: Addr, net: Net): (r: (bool, World))
    ensures SameLayout(w, r.1) && Same(r.1.queries, w.queries)
    ensures OnlyTrans(w.trans, r.1.trans, t)
  {
    var (ok, w1) := TryCommit(w, t, net);
    if ok then (true, KeepLocks(w1, t)) else (false, w1)
  }

  /** fbt_rollback_retaining. */
  function TryRollbackRetaining(w: World, t: Addr, net: Net): (r: (bool, World))
    ensures SameLayout(w, r.1) && Same(r.1.queries, w.queries)
    ensures OnlyTrans(w.trans, r.1.trans, t)
  {
    var (ok, w1) := TryRollback(w, t, net);
    if ok then (true, KeepLocks(w1, t)) else (false, w1)
  }

  function KeepLocks(w: World, t: Addr): (r: World)
    ensures SameLayout(w, r) && Same(r.queries, w.queries)
    ensures OnlyTrans(w.trans, r.trans, t)
  {
    if t !in w.trans || w.trans[t].handle.None? then Fault(w)
    else SetT(w, t, w.trans[t].(handle := Some(w.trans[t].handle.value.(locks := true))))
  }

  /** fbt_free (or simply dropping the pointer) and fbt_transaction = NULL: pending work is lost. */
  function FreeHandle(w: World, t: Addr): (r: World)
    ensures SameLayout(w, r) && Same(r.queries, w.queries)
    ensures OnlyTrans(w.trans, r.trans, t)
  {
    if t !in w.trans then Fault(w) else SetT(w, t, w.trans[t].(handle := None))
  }

  /** fbc_get_attachment and fbt_start: one answer for both. */
  function Start(w: World, t: Addr, tpb: seq<Byte>, net: Net): (r: (bool, World))
    ensures SameLayout(w, r.1) && Same(r.1.queries, w.queries)
    ensures OnlyTrans(w.trans, r.1.trans, t)
  {
    if t !in w.trans then (false, Fault(w))
    else if !net(w.tick) then (false, Tick(w))
    else (true, SetT(Tick(w), t, w.trans[t].(handle := Some(Handle(tpb, [], false)))))
  }

  /** _php_fbird_trans_restart_from_tpb */
  function RestartFromTpb(w: World, t: Addr, net: Net): (r: (bool, World))
    ensures SameLayout(w, r.1) && Same(r.1.queries, w.queries)
    ensures OnlyTrans(w.trans, r.1.trans, t)
  {
    if t !in w.trans then (false, Fault(w))
    else
      match w.trans[t].link
      case None => (false, w)
      case Some(l) =>
        if l !in w.links then (false, Fault(w))
        else if !net(w.tick) then (false, Tick(w))
        else
          var (ok, w1) := Start(Tick(w), t, w.trans[t].tpb, net);
          if ok then (true, SetT(w1, t, w1.trans[t].(retain := false))) else (false, w1)
  }

  /** _php_fbird_trans_commit_restart */
  function CommitRestart(w: World, t: Addr, net: Net): (r: (bool, World))
    ensures SameLayout(w, r.1) && Same(r.1.queries, w.queries)
    ensures OnlyTrans(w.trans, r.1.trans, t)
  {
    if t !in w.trans then (false, Fault(w))
    else
      match w.trans[t].link
      case None => (false, w)
      case Some(l) =>
        if l !in w.links then (false, Fault(w))
        else
          var (ok, w1) := TryCommit(w, t, net);
          if ok then RestartFromTpb(FreeHandle(w1, t), t, net) else (false, w1)
  }

  /** _php_fbird_trans_rollback_restart: no ping, and retain_committed is left as it was. */
  function RollbackRestart(w: World, t: Addr, net: Net): (r: (bool, World))
    ensures SameLayout(w, r.1) && Same(r.1.queries, w.queries)
    ensures OnlyTrans(w.trans, r.1.trans, t)
  {
    if t !in w.trans then (false, Fault(w))
    else
      match w.trans[t].link
      case None => (false, w)
      case Some(l) =>
        if l !in w.links then (false, Fault(w))
        else
          var (ok, w1) := TryRollback(w, t, net);
          if ok then Start(FreeHandle(w1, t), t, w.trans[t].tpb, net) else (false, w1)
  }

  /** When _php_fbird_trans_release_if_idle goes past its guards. */
  predicate Idle(tr: Trans) {
    tr.retain && tr.count == 0 && tr.handle.Some? && tr.queries == [] && tr.batches == []
  }

  /** _php_fbird_trans_release_if_idle */
  function ReleaseIfIdle(w: World, t: Addr, net: Net): (r: World)
    ensures SameLayout(w, r) && Same(r.queries, w.queries)
    ensures OnlyTrans(w.trans, r.trans, t)
  {
    if t !in w.trans then Fault(w)
    else if !Idle(w.trans[t]) then w
    else CommitRestart(SetT(w, t, w.trans[t].(retain := false)), t, net).1
  }

  function SetOpen(w: World, q: Addr, open: bool): (r: World)
    ensures SameLayout(w, r) && Same(r.trans, w.trans) && OnlyFlags(w.queries, r.queries, q)
  {
    if q !in w.queries then Fault(w) else SetQ(w, q, w.queries[q].(isOpen := open))
  }

  function SetMore(w: World, q: Addr, more: bool): (r: World)
    ensures SameLayout(w, r) && Same(r.trans, w.trans) && OnlyFlags(w.queries, r.queries, q)
  {
    if q !in w.queries then Fault(w) else SetQ(w, q, w.queries[q].(more := more))
  }

  /** The counter is an unsigned short: the increment after 65535 gives 0. */
  function CountUp(w: World, t: Addr): (r: World)
    ensures SameLayout(w, r) && Same(r.queries, w.queries)
  {
    if t !in w.trans then Fault(w)
    else if w.trans[t].count + 1 < COUNTER_LIMIT then SetT(w, t, w.trans[t].(count := w.trans[t].count + 1))
    else SetT(w, t, w.trans[t].(count := 0)).(wrapped := true)
  }

  /** _php_fbird_cursor_opened */
  function CursorOpened(w: World, q: Addr): (r: World)
    ensures SameLayout(w, r) && OnlyFlags(w.queries, r.queries, q)
  {
    if q !in w.queries then Fault(w)
    else if w.queries[q].isOpen then w
    else SetOpen(if w.queries[q].trans.Some? then CountUp(w, w.queries[q].trans.value) else w, q, true)
  }

  /** The counter never goes below 0; when it gets there the transaction may be idle. */
  function CountDown(w: World, t: Addr, net: Net): (r: World)
    ensures SameLayout(w, r) && Same(r.queries, w.queries)
  {
    if t !in w.trans then Fault(w)
    else if w.trans[t].count == 0 then w
    else
      var w1 := SetT(w, t, w.trans[t].(count := w.trans[t].count - 1));
      if w1.trans[t].count == 0 then ReleaseIfIdle(w1, t, net) else w1
  }

  /** _php_fbird_cursor_closed */
  function CursorClosed(w: World, q: Addr, net: Net): (r: World)
    ensures SameLayout(w, r) && OnlyFlags(w.queries, r.queries, q)
  {
    if q !in w.queries then Fault(w)
    else
      var qq := w.queries[q];
      SetOpen(if qq.isOpen && qq.trans.Some? then CountDown(w, qq.trans.value, net) else w, q, false)
  }

  /** _php_fbird_trans_reg_query, with the assignment of q->trans that goes with every call. */
  function Enroll(w: World, q: Addr, t: Addr): World {
    if q !in w.queries || t !in w.trans then Fault(w)
    else
      SetQ(SetT(w, t, w.trans[t].(queries := [q] + w.trans[t].queries)), q,
           w.queries[q].(trans := Some(t), reg := Some(t)))
  }

  /** The registries after `q` has been unlinked from the one it is enrolled in. */
  function Left(T: map<Addr, Trans>, reg: Option<Addr>, q: Addr): map<Addr, Trans> {
    if reg.None? || reg.value !in T then T
    else T[reg.value := T[reg.value].(queries := Without(T[reg.value].queries, q))]
  }

  /** _php_fbird_trans_unreg_query followed by q->trans = NULL. */
  function Unenroll(w: World, q: Addr): World {
    if q !in w.queries then Fault(w)
    else
      var qq := w.queries[q];
      if qq.reg.Some? && qq.reg.value !in w.trans then Fault(w)
      else w.(queries := w.queries[q := qq.(trans := None, reg := None)], trans := Left(w.trans, qq.reg, q))
  }

  /** _php_fbird_trans_detach_queries and the efree of the struct that follows it at every call site. */
  function DetachAndFree(w: World, t: Addr): World {
    if t !in w.trans then Fault(w)
    else if exists q :: q in w.trans[t].queries && q !in w.queries then Fault(w)
    else if exists b :: b in w.trans[t].batches && b !in w.batches then Fault(w)
    else
      var tr := w.trans[t];
      w.(trans := w.trans - {t},
         queries := map q | q in w.queries ::
           if q in tr.queries then w.queries[q].(trans := None, reg := None) else w.queries[q],
         batches := map b | b in w.batches ::
           if b in tr.batches then w.batches[b].(trans := None, reg := None) else w.batches[b])
  }

  /** _php_fbird_find_default_trans, on the part of tr_list still to be walked. */
  function FirstDefault(trans: map<Addr, Trans>, trs: seq<Option<Addr>>): Option<Addr> {
    if trs == [] then None
    else if trs[0].Some? && trs[0].value in trans && trans[trs[0].value].isDefault then trs[0]
    else FirstDefault(trans, trs[1..])
  }

  /** A walk of tr_list that dereferences every node's transaction. */
  predicate Walkable(w: World, l: Addr) {
    l in w.links && forall n :: n in w.links[l].trs && n.Some? ==> n.value in w.trans
  }

  /** Allocates a transaction struct and appends it to the link's tr_list. */
  function NewTrans(w: World, l: Addr, tr: Trans): World
    requires l in w.links
  {
    var t := w.next;
    w.(trans := w.trans[t := tr],
       links := w.links[l := w.links[l].(trs := w.links[l].trs + [Some(t)])],
       next := t + 1)
  }

  function FreshTrans(l: Addr, isDefault: bool, tpb: seq<Byte>, exact: bool, handle: Option<Handle>): Trans {
    Trans(Some(l), isDefault, 0, false, tpb, exact, handle, [], [])
  }

  /** The link's default transaction, allocated and appended if there is none. */
  function DefaultSlot(w: World, l: Addr): (Addr, World)
    requires l in w.links
  {
    match FirstDefault(w.trans, w.links[l].trs)
    case Some(t) => (t, w)
    case None => (w.next, NewTrans(w, l, FreshTrans(l, true, [], true, None)))
  }

  /** A default transaction without a handle is started with `dflt`, which is then stored. */
  function StartDefault(w: World, t: Addr, dflt: seq<Byte>, net: Net): (r: (Option<Addr>, World))
    ensures SameLayout(w, r.1) && Same(r.1.queries, w.queries)
    ensures OnlyTrans(w.trans, r.1.trans, t)
  {
    if t !in w.trans then (None, Fault(w))
    else if w.trans[t].handle.Some? then (Some(t), w)
    else if !net(w.tick) then (None, Tick(w))
    else (Some(t), SetT(Tick(w), t, w.trans[t].(handle := Some(Handle(dflt, [], false)), tpb := dflt)))
  }

  /** _php_fbird_def_trans with *trans == NULL; `dflt` is the block built from the current INI settings.
      The struct stays on tr_list even when the start fails. */
  function DefTrans(w: World, l: Addr, dflt: seq<Byte>, net: Net): (Option<Addr>, World) {
    if !Walkable(w, l) then (None, Fault(w))
    else var (t, w1) := DefaultSlot(w, l); StartDefault(w1, t, dflt, net)
  }

  /** Takes `t` off the tr_list of its link, as the le_trans destructor does. */
  function UnlinkTrans(w: World, t: Addr): World {
    if t !in w.trans then Fault(w)
    else
      match w.trans[t].link
      case None => w
      case Some(l) =>
        if l !in w.links then Fault(w)
        else w.(links := w.links[l := w.links[l].(trs := Without(w.links[l].trs, Some(t)))],
                trans := w.trans[t := w.trans[t].(link := None)])
  }

  /** fbt_commit / fbt_rollback when `act`, then the handle is dropped either way. */
  function EndAndDrop(w: World, t: Addr, act: bool, commit: bool, net: Net): (r: World)
    ensures SameLayout(w, r) && Same(r.queries, w.queries)
    ensures OnlyTrans(w.trans, r.trans, t)
  {
    if t !in w.trans then Fault(w)
    else if w.trans[t].handle.None? then w
    else FreeHandle(if !act then w else if commit then TryCommit(w, t, net).1 else TryRollback(w, t, net).1, t)
  }

  /** _php_fbird_free_trans */
  function FreeTrans(w: World, t: Addr, net: Net): World {
    if t !in w.trans then Fault(w)
    else
      var tr := w.trans[t];
      if tr.link.Some? && tr.link.value !in w.links then Fault(w)
      else
        var pings := tr.handle.Some? && tr.link.Some?;
        var w1 := EndAndDrop(if pings then Tick(w) else w, t, pings && net(w.tick), false, net);
        DetachAndFree(UnlinkTrans(w1, t), t)
  }

  datatype Mode = Rollback | Commit | RollbackRet | CommitRet

  /** The condition under which a retaining commit or rollback is done as a hard one and a restart. */
  predicate NothingToRetain(tr: Trans) { tr.count == 0 && tr.queries == [] && tr.batches == [] }

  /** The switch of _php_fbird_trans_end, for a transaction with a handle. */
  function EndSwitch(w: World, t: Addr, mode: Mode, net: Net): (r: (bool, World))
    requires t in w.trans
    ensures SameLayout(w, r.1) && Same(r.1.queries, w.queries)
    ensures OnlyTrans(w.trans, r.1.trans, t)
  {
    match mode
    case Rollback => TryRollback(w, t, net)
    case Commit => TryCommit(w, t, net)
    case RollbackRet =>
      if NothingToRetain(w.trans[t]) then RollbackRestart(w, t, net) else TryRollbackRetaining(w, t, net)
    case CommitRet =>
      if NothingToRetain(w.trans[t]) then CommitRestart(w, t, net)
      else
        var (ok, w1) := TryCommitRetaining(w, t, net);
        (ok, if ok && t in w1.trans then SetT(w1, t, w1.trans[t].(retain := true)) else w1)
  }

  /** _php_fbird_trans_end: fbird_commit, fbird_rollback, fbird_commit_ret and fbird_rollback_ret. */
  function TransEnd(w: World, t: Addr, mode: Mode, net: Net): (r: (bool, World))
    ensures SameLayout(w, r.1) && Same(r.1.queries, w.queries)
    ensures OnlyTrans(w.trans, r.1.trans, t)
  {
    if t !in w.trans then (false, Fault(w))
    else if w.trans[t].handle.None? && w.trans[t].isDefault then (true, w)
    else
      var (ready, w1) := if w.trans[t].handle.None? then RestartFromTpb(w, t, net) else (true, w);
      if !ready then (false, w1)
      else
        var (ok, w2) := EndSwitch(w1, t, mode, net);
        if mode.RollbackRet? || mode.CommitRet? then (ok, w2)
        else if t !in w2.trans then (ok, Fault(w2))
        else (ok, SetT(w2, t, w2.trans[t].(handle := None, retain := false)))
  }

  /** Firebird\Transaction::commit and ::rollback on the resource path: retain_committed is kept. */
  function ObjectEnd(w: World, t: Addr, commit: bool, net: Net): (r: World)
    ensures SameLayout(w, r) && Same(r.queries, w.queries)
    ensures OnlyTrans(w.trans, r.trans, t)
  {
    EndAndDrop(w, t, true, commit, net)
  }

  /** fbird_release_metadata_locks and Firebird\Transaction::releaseMetadataLocks. */
  function ReleaseLocks(w: World, t: Addr, net: Net): (r: World)
    ensures SameLayout(w, r) && Same(r.queries, w.queries)
    ensures OnlyTrans(w.trans, r.trans, t)
  {
    if t !in w.trans then Fault(w)
    else if w.trans[t].handle.None? then w
    else CommitRestart(w, t, net).1
  }
}
