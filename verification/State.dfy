/** The structs of php_fbird_includes.h and the memory they live in.

    C memory is a set of maps from addresses to struct values: `emalloc` adds a key, `efree` removes it,
    and every dereference of an address that is not a key raises `fault`.  A world without `fault` is
    one in which no freed struct was read, written or freed again. */
module State {
  datatype Option<+T> = None | Some(value: T)

  type Addr = nat

  type Byte = b: int | 0 <= b < 256

  /** One statement's effect on the database, named by a number that is never given out twice. */
  type Work = nat

  /** What the server answers to the n-th call made to it: true is success (or "the attachment responds"). */
  type Net = nat -> bool

  /** A server that always agrees. */
  const YES: Net := (n: nat) => true

  /** A server that refuses everything. */
  const NO: Net := (n: nat) => false

  const COUNTER_LIMIT: nat := 0x1_0000   // open_cursor_count is an unsigned short
  const MAX_COLUMNS: nat := 32767

  /** A started server transaction: the parameter block it was started with, the work it has not
      committed, and whether it holds on to locks of an earlier retaining commit or rollback. */
  datatype Handle = Handle(tpb: seq<Byte>, pending: seq<Work>, locks: bool)

  /** fbird_transaction. `link` is db_link[0] (link_cnt is 1 for every transaction that can be made),
      `queries` and `batches` are the lists headed by query_head and batch_head, and `exact` records
      whether the block passed to the first start was the one stored. */
  datatype Trans = Trans(
    link: Option<Addr>, isDefault: bool, count: nat, retain: bool, tpb: seq<Byte>, exact: bool,
    handle: Option<Handle>, queries: seq<Addr>, batches: seq<Addr>)

  datatype Kind = Select | Dml | Procedure | Ddl | Savepoint | SetTrans | CommitSql | RollbackSql | Unsupported

  /** What the server says about a statement: output columns and parameters. */
  datatype Form = Form(columns: nat, inputs: nat)

  /** fbird_query. `explicit` is trans_res != NULL, `columns` is out_fields_count, `sqld` the count in
      out_sqlda (which exists exactly when columns > 0), `inputs` is in_fields_count, `canBind` is
      bind_buf != NULL, `once` is was_result_once. */
  datatype Query = Query(
    link: Addr, trans: Option<Addr>, reg: Option<Addr>, explicit: bool, kind: Kind, columns: nat, sqld: nat,
    inputs: nat, canBind: bool, isOpen: bool, more: bool, once: bool, stmt: Option<Addr>, owns: bool,
    parent: Option<Addr>, children: seq<Addr>)

  datatype Batch = Batch(trans: Option<Addr>, reg: Option<Addr>, query: Addr, wrapper: bool)

  /** fbird_db_link. `trs` is tr_list; a node's trans pointer can be NULL. */
  datatype Link = Link(persistent: bool, trs: seq<Option<Addr>>)

  datatype World = World(
    links: map<Addr, Link>, trans: map<Addr, Trans>, queries: map<Addr, Query>, batches: map<Addr, Batch>,
    stmts: set<Addr>,        // statement handles made by fbs_prepare and not yet given to fbs_free
    durable: seq<Work>,      // what the server has committed, in order
    next: nat,               // the next unused address, handle or work number
    tick: nat,               // calls made to the server so far
    fault: bool,
    wrapped: bool,           // some open_cursor_count went from 65535 to 0
    rules: Rules)

  /** `autoDdl` is the setting firebird.auto_ddl_commit; `strict` and `faithful` are promises about how the
      run goes on, read by no function: see FetchedFirst and, for the transactions at the addresses in `faithful`,
      KeepsBlock. */
  datatype Rules = Rules(autoDdl: bool, strict: bool, faithful: set<Addr>)

  function Empty(rules: Rules): World { World(map[], map[], map[], map[], {}, [], 0, 0, false, false, rules) }

  function Fault(w: World): World { w.(fault := true) }

  function Tick(w: World): World { w.(tick := w.tick + 1) }

  function SetT(w: World, t: Addr, tr: Trans): World { w.(trans := w.trans[t := tr]) }

  function SetQ(w: World, q: Addr, qq: Query): World { w.(queries := w.queries[q := qq]) }

  /** A list without the first occurrence of `x`: what the pointer-to-pointer unlink loops leave. */
  function Without<T(==)>(s: seq<T>, x: T): seq<T> {
    if s == [] then [] else if s[0] == x then s[1..] else [s[0]] + Without(s[1..], x)
  }

  predicate NoDup<T(==)>(s: seq<T>) { forall i, j :: 0 <= i < j < |s| ==> s[i] != s[j] }

  function Min(a: nat, b: nat): nat { if a < b then a else b }

  lemma UpdateTwice<K, V>(m: map<K, V>, k: K, a: V, b: V)
    ensures m[k := a][k := b] == m[k := b]
  {}

  ghost predicate Same<A>(a: A, b: A) { a == b }

  /** Nothing was allocated, freed or moved between links and batches. */
  ghost predicate SameLayout(w: World, r: World) {
    && Same(r.links, w.links) && Same(r.batches, w.batches) && Same(r.stmts, w.stmts) && r.next == w.next
    && r.rules == w.rules && r.trans.Keys == w.trans.Keys
  }

  /** The parts of a transaction struct that say where it belongs. */
  predicate SameSite(a: Trans, b: Trans) { a.link == b.link && a.isDefault == b.isDefault && a.exact == b.exact }

  /** Two transaction structs that differ in flags and handle only. */
  predicate SamePlace(a: Trans, b: Trans) {
    SameSite(a, b) && a.queries == b.queries && a.batches == b.batches && a.count == b.count
  }

  /** Only transaction `t` changed, and it stayed in its place. */
  ghost predicate OnlyTrans(T: map<Addr, Trans>, R: map<Addr, Trans>, t: Addr) {
    && (t in T && t in R ==> SamePlace(T[t], R[t]))
    && forall u :: u in T && u != t ==> u in R && Same(R[u], T[u])
  }

  /** Two query structs that differ in cursor flags only. */
  ghost predicate SameRole(a: Query, b: Query) { Same(b, a.(isOpen := b.isOpen, more := b.more, once := b.once)) }

  /** Only the cursor flags of query `q` changed. */
  ghost predicate OnlyFlags(Q: map<Addr, Query>, R: map<Addr, Query>, q: Addr) {
    && R.Keys == Q.Keys
    && (q in Q ==> SameRole(Q[q], R[q]))
    && forall x :: x in Q && x != q ==> Same(R[x], Q[x])
  }
}
