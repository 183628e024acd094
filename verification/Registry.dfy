/** The back-reference registries of fbird_transaction.c as they are in memory: singly linked lists threaded
    through the queries and batches, relinked in place.  `queries` and `batches` are what the lists spell. */
module Registry {
  import opened State

  // ------------------------------------------------------------ structs

  class Transaction {
    const isDefault: bool
    var queryHead: Query?
    var batchHead: Batch?
    var openCursors: nat          // an unsigned short
    var retainCommitted: bool
    var started: bool             // fbt_transaction != NULL
    ghost var queries: seq<Query>
    ghost var batches: seq<Batch>

    /** The list of queries is acyclic, free of duplicates, and made of structs that point back here. */
    ghost predicate QueriesOk()
      reads this`queryHead, this`queries, queries`transReg, queries`transRegNext
    {
      NoDup(queries) && QueryChain(queryHead, queries) && forall q :: q in queries ==> q.transReg == this
    }

    ghost predicate BatchesOk()
      reads this`batchHead, this`batches, batches`transReg, batches`batchRegNext
    {
      NoDup(batches) && BatchChain(batchHead, batches) && forall b :: b in batches ==> b.transReg == this
    }

    ghost predicate Valid()
      reads this, queries, batches
    {
      QueriesOk() && BatchesOk()
    }

    constructor (isDefault: bool)
      ensures Valid() && queries == [] && batches == [] && openCursors == 0 && !retainCommitted && !started
      ensures this.isDefault == isDefault
    {
      this.isDefault := isDefault;
      queryHead, batchHead, openCursors, retainCommitted, started := null, null, 0, false, false;
      queries, batches := [], [];
    }

    /** _php_fbird_trans_reg_query */
    method RegisterQuery(q: Query)
      requires Valid() && q.transReg == null
      modifies this`queryHead, this`queries, q`transReg, q`transRegNext
      ensures Valid() && queries == [q] + old(queries) && batches == old(batches) && q.transReg == this
    {
      q.transReg := this;
      q.transRegNext := queryHead;
      queryHead := q;
      queries := [q] + queries;
      forall i | 0 <= i < |queries| ensures queries[i].transRegNext == AfterQ(queries, i) {
        if i > 0 { assert queries[i] == old(queries)[i - 1] && AfterQ(queries, i) == AfterQ(old(queries), i - 1); }
      }
    }

    /** The enrolment at the end of fbird_batch_create. */
    method RegisterBatch(b: Batch)
      requires Valid() && b.transReg == null
      modifies this`batchHead, this`batches, b`trans, b`transReg, b`batchRegNext
      ensures Valid() && batches == [b] + old(batches) && queries == old(queries) && b.transReg == this &&
              b.trans == this
    {
      b.trans := this;
      b.transReg := this;
      b.batchRegNext := batchHead;
      batchHead := b;
      batches := [b] + batches;
      forall i | 0 <= i < |batches| ensures batches[i].batchRegNext == AfterB(batches, i) {
        if i > 0 { assert batches[i] == old(batches)[i - 1] && AfterB(batches, i) == AfterB(old(batches), i - 1); }
      }
    }

    /** Whether _php_fbird_trans_release_if_idle gets past its guards. */
    method IsIdle() returns (idle: bool)
      requires QueriesOk()
      ensures idle <==> retainCommitted && openCursors == 0 && started && queries == [] && batchHead == null
    {
      idle := retainCommitted && openCursors == 0 && started && queryHead == null && batchHead == null;
    }

    /** Where the walk of an unlink loop stops: the struct in front of `q`, if any. */
    method QueryBefore(q: Query) returns (prev: Query?, ghost i: nat)
      requires QueriesOk() && q in queries
      ensures i < |queries| && queries[i] == q && prev == if i == 0 then null else queries[i - 1]
    {
      prev, i := null, 0;
      var curr := queryHead;
      while curr != q
        invariant i < |queries| && curr == queries[i] && q in queries[i..]
        invariant prev == if i == 0 then null else queries[i - 1]
        decreases |queries| - i
      {
        prev, curr, i := curr, curr.transRegNext, i + 1;
      }
    }

    method BatchBefore(b: Batch) returns (prev: Batch?, ghost i: nat)
      requires BatchesOk() && b in batches
      ensures i < |batches| && batches[i] == b && prev == if i == 0 then null else batches[i - 1]
    {
      prev, i := null, 0;
      var curr := batchHead;
      while curr != b
        invariant i < |batches| && curr == batches[i] && b in batches[i..]
        invariant prev == if i == 0 then null else batches[i - 1]
        decreases |batches| - i
      {
        prev, curr, i := curr, curr.batchRegNext, i + 1;
      }
    }

    /** `*curr = q->trans_reg_next`, and the struct forgets the list. */
    method QueryUnlink(prev: Query?, q: Query, ghost i: nat)
      requires QueriesOk() && i < |queries| && queries[i] == q && prev == if i == 0 then null else queries[i - 1]
      modifies this`queryHead, this`queries, queries`transRegNext, q`transReg
      ensures QueriesOk() && queries == old(queries)[..i] + old(queries)[i + 1..] && q.transReg == null &&
              q.transRegNext == null
    {
      ghost var s := queries;
      if prev == null { queryHead := q.transRegNext; } else { prev.transRegNext := q.transRegNext; }
      q.transReg, q.transRegNext := null, null;
      queries := s[..i] + s[i + 1..];
      Spliced(s, i);
      forall k | 0 <= k < |queries| ensures queries[k].transRegNext == AfterQ(queries, k) {
        var at := if k < i then k else k + 1;
        assert queries[k] == s[at] && s[at] != q && (at + 1 != i ==> s[at].transRegNext == AfterQ(s, at));
      }
    }

    /** The first loop of _php_fbird_trans_detach_queries. */
    method DetachQueries()
      requires QueriesOk()
      modifies this`queryHead, this`queries, queries`trans, queries`transReg, queries`transRegNext
      ensures QueriesOk() && queries == []
      ensures forall q :: q in old(queries) ==> q.trans == null && q.transReg == null && q.transRegNext == null
    {
      ghost var s, i := queries, 0;
      var q := queryHead;
      while q != null
        invariant queries == s && 0 <= i <= |s| && q == if i < |s| then s[i] else null
        invariant forall j :: 0 <= j < i ==> s[j].trans == null && s[j].transReg == null && s[j].transRegNext == null
        invariant forall j {:trigger s[j].transRegNext} :: i <= j < |s| ==> s[j].transRegNext == AfterQ(s, j)
        decreases |s| - i
      {
        var next := q.transRegNext;
        assert forall j :: i < j < |s| ==> s[j] != q;
        q.trans, q.transReg, q.transRegNext := null, null, null;
        q, i := next, i + 1;
      }
      queryHead, queries := null, [];
    }

    /** `*curr = b->batch_reg_next`, and the struct forgets the list. */
    method BatchUnlink(prev: Batch?, b: Batch, ghost i: nat)
      requires BatchesOk() && i < |batches| && batches[i] == b && prev == if i == 0 then null else batches[i - 1]
      modifies this`batchHead, this`batches, batches`batchRegNext, b`transReg
      ensures BatchesOk() && batches == old(batches)[..i] + old(batches)[i + 1..] && b.transReg == null &&
              b.batchRegNext == null
    {
      ghost var s := batches;
      if prev == null { batchHead := b.batchRegNext; } else { prev.batchRegNext := b.batchRegNext; }
      b.transReg, b.batchRegNext := null, null;
      batches := s[..i] + s[i + 1..];
      Spliced(s, i);
      forall k | 0 <= k < |batches| ensures batches[k].batchRegNext == AfterB(batches, k) {
        var at := if k < i then k else k + 1;
        assert batches[k] == s[at] && s[at] != b && (at + 1 != i ==> s[at].batchRegNext == AfterB(s, at));
      }
    }

    /** The second one. */
    method DetachBatches()
      requires BatchesOk()
      modifies this`batchHead, this`batches, batches`trans, batches`transReg, batches`batchRegNext
      ensures BatchesOk() && batches == []
      ensures forall b :: b in old(batches) ==> b.trans == null && b.transReg == null && b.batchRegNext == null
    {
      ghost var s, i := batches, 0;
      var b := batchHead;
      while b != null
        invariant batches == s && 0 <= i <= |s| && b == if i < |s| then s[i] else null
        invariant forall j :: 0 <= j < i ==> s[j].trans == null && s[j].transReg == null && s[j].batchRegNext == null
        invariant forall j {:trigger s[j].batchRegNext} :: i <= j < |s| ==> s[j].batchRegNext == AfterB(s, j)
        decreases |s| - i
      {
        var next := b.batchRegNext;
        assert forall j :: i < j < |s| ==> s[j] != b;
        b.trans, b.transReg, b.batchRegNext := null, null, null;
        b, i := next, i + 1;
      }
      batchHead, batches := null, [];
    }

    /** _php_fbird_trans_detach_queries: no query or batch points here any more. */
    method Detach()
      requires Valid()
      modifies this`queryHead, this`queries, queries`trans, queries`transReg, queries`transRegNext
      modifies this`batchHead, this`batches, batches`trans, batches`transReg, batches`batchRegNext
      ensures Valid() && queries == [] && batches == []
      ensures forall q :: q in old(queries) ==> q.trans == null && q.transReg == null && q.transRegNext == null
      ensures forall b :: b in old(batches) ==> b.trans == null && b.transReg == null && b.batchRegNext == null
    {
      DetachQueries();
      DetachBatches();
    }
  }

  class Query {
    var trans: Transaction?
    var transReg: Transaction?
    var transRegNext: Query?
    var isOpen: bool

    constructor ()
      ensures trans == null && transReg == null && !isOpen
    {
      trans, transReg, transRegNext, isOpen := null, null, null, false;
    }

    /** `q->is_open = open`, and what that does to the number of open queries of a list. */
    method SetOpen(open: bool, ghost s: seq<Query>)
      requires NoDup(s) && this in s
      modifies this`isOpen
      ensures isOpen == open
      ensures OpenCount(s) == old(OpenCount(s)) + (if open then 1 else 0) - if old(isOpen) then 1 else 0
    {
      hide Count;
      ghost var before := Flags(s);
      ghost var i :| 0 <= i < |s| && s[i] == this;
      isOpen := open;
      forall k | 0 <= k < |s| && k != i ensures s[k] != this {}
      assert Flags(s) == before[i := open];
      CountFlip(before, i, open);
    }

    /** The transaction of a query, if any, lists it. */
    ghost predicate Enrolled()
      reads this`trans, this`transReg, On(trans)`queryHead, On(trans)`queries, On(trans)`openCursors
      reads (if trans == null then [] else trans.queries)`transReg,
          (if trans == null then [] else trans.queries)`transRegNext
    {
      trans == transReg && (trans != null ==>
          trans.QueriesOk() && this in trans.queries && trans.openCursors < COUNTER_LIMIT)
    }

    /** How far the transaction's counter is above the number of its open queries. */
    ghost function Excess(): int
      requires trans != null
      reads this, trans, trans.queries`isOpen
    {
      trans.openCursors - OpenCount(trans.queries)
    }

    /** _php_fbird_cursor_opened: the excess stays, unless the counter wraps around. */
    method CursorOpened()
      requires Enrolled()
      modifies this`isOpen, On(trans)`openCursors
      ensures Enrolled() && isOpen
      ensures trans != null && (old(isOpen) || old(trans.openCursors) + 1 < COUNTER_LIMIT) ==> Excess() == old(Excess())
      ensures trans != null && !old(isOpen) && old(trans.openCursors) + 1 == COUNTER_LIMIT ==> trans.openCursors == 0
    {
      hide OpenCount, NoDup, QueryChain;
      if !isOpen {
        if trans == null { One(this); }
        SetOpen(true, if trans == null then [this] else trans.queries);
        if trans != null {
          trans.openCursors := if trans.openCursors + 1 < COUNTER_LIMIT then trans.openCursors + 1 else 0;
        }
      }
    }

    /** _php_fbird_cursor_closed: the excess stays, unless the counter was 0 already. `release` is whether
        the idle release it calls goes ahead: never, because this query is still enrolled. */
    method CursorClosed() returns (release: bool)
      requires Enrolled()
      modifies this`isOpen, On(trans)`openCursors
      ensures Enrolled() && !isOpen && !release
      ensures trans != null && (old(isOpen) ==> old(trans.openCursors) > 0) ==> Excess() == old(Excess())
    {
      hide OpenCount, NoDup, QueryChain;
      release := false;
      if trans == null { One(this); }
      if isOpen && trans != null && trans.openCursors > 0 {
        trans.openCursors := trans.openCursors - 1;
        if trans.openCursors == 0 { release := trans.IsIdle(); }
      }
      SetOpen(false, if trans == null then [this] else trans.queries);
    }

    /** _php_fbird_trans_unreg_query: the pointer-to-pointer walk unlinks this query and nothing else. */
    method Unregister()
      requires transReg != null ==> transReg.Valid() && this in transReg.queries
      modifies this`transReg, this`transRegNext
      modifies On(transReg)`queryHead, On(transReg)`queries,
          (if transReg != null then transReg.queries else [])`transRegNext
      ensures transReg == null && (old(transReg) != null ==> transRegNext == null)
      ensures old(transReg) != null ==>
                old(transReg).Valid() && old(transReg).queries == Without(old(transReg.queries), this)
    {
      if transReg == null { return; }
      hide Without;
      var t := transReg;
      ghost var i;
      var prev: Query?;
      prev, i := t.QueryBefore(this);
      WithoutAt(t.queries, i);
      t.QueryUnlink(prev, this, i);
    }
  }

  class Batch {
    var trans: Transaction?
    var transReg: Transaction?
    var batchRegNext: Batch?

    constructor ()
      ensures trans == null && transReg == null
    {
      trans, transReg, batchRegNext := null, null, null;
    }

    /** _php_fbird_trans_unreg_batch */
    method Unregister()
      requires transReg != null ==> transReg.Valid() && this in transReg.batches
      modifies this`transReg, this`batchRegNext
      modifies On(transReg)`batchHead, On(transReg)`batches,
          (if transReg != null then transReg.batches else [])`batchRegNext
      ensures transReg == null && (old(transReg) != null ==> batchRegNext == null)
      ensures old(transReg) != null ==>
                old(transReg).Valid() && old(transReg).batches == Without(old(transReg.batches), this)
    {
      if transReg == null { return; }
      hide Without;
      var t := transReg;
      ghost var i;
      var prev: Batch?;
      prev, i := t.BatchBefore(this);
      WithoutAt(t.batches, i);
      t.BatchUnlink(prev, this, i);
    }
  }

  // ------------------------------------------------------------ chains

  ghost function On(t: Transaction?): set<Transaction> { if t == null then {} else {t} }

  ghost function AfterQ(s: seq<Query>, i: nat): Query? {
    if i + 1 < |s| then s[i + 1] else null
  }

  ghost function AfterB(s: seq<Batch>, i: nat): Batch? {
    if i + 1 < |s| then s[i + 1] else null
  }

  ghost predicate QueryChain(head: Query?, s: seq<Query>)
    reads s`transRegNext
  {
    && head == (if s == [] then null else s[0])
    && forall i {:trigger s[i].transRegNext} :: 0 <= i < |s| ==> s[i].transRegNext == AfterQ(s, i)
  }

  ghost predicate BatchChain(head: Batch?, s: seq<Batch>)
    reads s`batchRegNext
  {
    && head == (if s == [] then null else s[0])
    && forall i {:trigger s[i].batchRegNext} :: 0 <= i < |s| ==> s[i].batchRegNext == AfterB(s, i)
  }

  ghost function Flags(s: seq<Query>): (r: seq<bool>)
    reads s`isOpen
    ensures |r| == |s| && forall i :: 0 <= i < |s| ==> r[i] == s[i].isOpen
  {
    if s == [] then [] else [s[0].isOpen] + Flags(s[1..])
  }

  ghost function Count(flags: seq<bool>): nat {
    if flags == [] then 0 else (if flags[0] then 1 else 0) + Count(flags[1..])
  }

  /** How many queries of a list have is_open set. */
  ghost function OpenCount(s: seq<Query>): nat
    reads s`isOpen
  {
    Count(Flags(s))
  }

  lemma {:induction false} CountFlip(flags: seq<bool>, i: nat, b: bool)
    requires i < |flags|
    ensures Count(flags[i := b]) == Count(flags) + (if b then 1 else 0) - if flags[i] then 1 else 0
  {
    if i > 0 {
      assert flags[i := b][1..] == flags[1..][i - 1 := b];
      CountFlip(flags[1..], i - 1, b);
    }
  }

  lemma One<T>(x: T)
    ensures NoDup([x])
  {}

  lemma Spliced<T>(s: seq<T>, i: nat)
    requires NoDup(s) && i < |s|
    ensures var r := s[..i] + s[i + 1..];
            && NoDup(r) && s[i] !in r
            && (forall k :: 0 <= k < i ==> r[k] == s[k]) && (forall k :: i <= k < |r| ==> r[k] == s[k + 1])
  {}

  lemma {:induction false} WithoutAt<T>(s: seq<T>, i: nat)
    requires NoDup(s) && i < |s|
    ensures Without(s, s[i]) == s[..i] + s[i + 1..]
  {
    if i > 0 {
      assert s[0] != s[i] && NoDup(s[1..]) && s[1..][i - 1] == s[i];
      WithoutAt(s[1..], i - 1);
      assert s[..i] == [s[0]] + s[1..][..i - 1] && s[i + 1..] == s[1..][i..];
    }
  }
}
