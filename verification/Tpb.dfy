/** The transaction parameter block that fbird_transaction.c builds from an option array, and the reading of
    such blocks.  The tags are those of the Firebird client header. */
module Tpb {
  import opened State

  const TPB_MAX_SIZE: nat := 2048

  const VERSION3: Byte := 3

  // ------------------------------------------------------------ what a block says

  datatype Mode = Shared | Protected | Exclusive

  datatype Clause =
    | Read | Write
    | ReadCommitted | RecVersion | NoRecVersion | Consistency | Concurrency
    | Wait | NoWait | LockTimeout(seconds: nat)
    | ReadConsistency
    | Lock(write: bool, table: seq<Byte>, mode: Mode)

  /** The header's value for read consistency is 22; fbird_transaction.c falls back to 70 where the header
      does not have it. */
  type Tag = b: Byte | b == 22 || b == 70 witness 22

  function ModeTag(m: Mode): Byte {
    match m
    case Shared => 3
    case Protected => 4
    case Exclusive => 5
  }

  function Bytes(c: Clause, rc: Tag): seq<Byte> {
    match c
    case Read => [8]
    case Write => [9]
    case ReadCommitted => [15]
    case RecVersion => [17]
    case NoRecVersion => [18]
    case Consistency => [1]
    case Concurrency => [2]
    case Wait => [6]
    case NoWait => [7]
    case LockTimeout(seconds) => [21, 2, seconds % 256, seconds / 256 % 256]
    case ReadConsistency => [rc]
    case Lock(write, table, mode) => [if write then 11 else 10, |table| % 256] + table + [ModeTag(mode)]
  }

  function AllBytes(cs: seq<Clause>, rc: Tag): seq<Byte> {
    if cs == [] then [] else Bytes(cs[0], rc) + AllBytes(cs[1..], rc)
  }

  lemma {:induction false} AllBytesConcat(a: seq<Clause>, b: seq<Clause>, rc: Tag)
    ensures AllBytes(a + b, rc) == AllBytes(a, rc) + AllBytes(b, rc)
  {
    if a == [] { assert a + b == b; }
    else {
      assert (a + b)[0] == a[0] && (a + b)[1..] == a[1..] + b;
      AllBytesConcat(a[1..], b, rc);
    }
  }

  /** One clause off the front of a block, with the number of bytes it takes. */
  function Next(s: seq<Byte>, rc: Tag): (r: Option<(Clause, nat)>)
    requires s != []
    ensures r.Some? ==> 0 < r.value.1 <= |s|
  {
    var b := s[0];
    if b == 8 then Some((Read, 1)) else if b == 9 then Some((Write, 1))
    else if b == 15 then Some((ReadCommitted, 1)) else if b == 17 then Some((RecVersion, 1))
    else if b == 18 then Some((NoRecVersion, 1))
    else if b == 1 then Some((Consistency, 1)) else if b == 2 then Some((Concurrency, 1))
    else if b == 6 then Some((Wait, 1)) else if b == 7 then Some((NoWait, 1))
    else if b == rc then Some((ReadConsistency, 1))
    else if b == 21 then if |s| >= 4 && s[1] == 2 then Some((LockTimeout((s[2] as int) + 256 * (s[3] as int)), 4))
    else None
    else if b == 10 || b == 11 then NextLock(s)
    else None
  }

  function NextLock(s: seq<Byte>): (r: Option<(Clause, nat)>)
    requires s != []
    ensures r.Some? ==> 0 < r.value.1 <= |s|
  {
    if |s| < 2 || |s| < 3 + (s[1] as int) then None
    else
      var n: nat := s[1];
      var m := s[2 + n];
      if 3 <= m <= 5 then Some((Lock(s[0] == 11, s[2..2 + n], if m == 3 then Shared else if m == 4 then Protected
      else Exclusive), 3 + n))
      else None
  }

  function ReadClauses(s: seq<Byte>, rc: Tag): Option<seq<Clause>> {
    if s == [] then Some([])
    else
      match Next(s, rc)
      case None => None
      case Some((c, n)) =>
        match ReadClauses(s[n..], rc)
        case None => None
        case Some(cs) => Some([c] + cs)
  }

  /** A whole block: the version byte and clauses. */
  function ReadBlock(s: seq<Byte>, rc: Tag): Option<seq<Clause>> {
    if s == [] || s[0] != VERSION3 then None else ReadClauses(s[1..], rc)
  }

  predicate Readable(c: Clause) {
    match c
    case LockTimeout(seconds) => seconds < 0x1_0000
    case Lock(_, table, _) => |table| < 256
    case _ => true
  }

  lemma NextReads(c: Clause, rest: seq<Byte>, rc: Tag)
    requires Readable(c)
    ensures Next(Bytes(c, rc) + rest, rc) == Some((c, |Bytes(c, rc)|))
  {
    var s := Bytes(c, rc) + rest;
    if c.Lock? { assert s[2..2 + |c.table|] == c.table; }
  }

  /** Reading is the inverse of writing. */
  lemma {:induction false} ReadsBack(cs: seq<Clause>, rc: Tag)
    requires forall c :: c in cs ==> Readable(c)
    ensures ReadClauses(AllBytes(cs, rc), rc) == Some(cs)
  {
    if cs != [] {
      var (b, rest) := (Bytes(cs[0], rc), AllBytes(cs[1..], rc));
      NextReads(cs[0], rest, rc);
      assert (b + rest)[|b|..] == rest;
      ReadsBack(cs[1..], rc);
      assert [cs[0]] + cs[1..] == cs;
    }
  }

  // ------------------------------------------------------------ options

  /** One entry of the `tables` option: the key, if it is a string, and the value, if it is an integer. */
  datatype Table = Table(name: Option<seq<Byte>>, flags: Option<int>)

  /** The option array: integer options are absent when the key is missing or its value is no integer. */
  datatype Options = Options(access: Option<int>, isolation: Option<int>, resolution: Option<int>, timeout: Option<int>,
                             readConsistency: bool, tables: seq<Table>)

  // the constants of php_fbird_includes.h
  const FBIRD_WRITE: int := 1
  const FBIRD_READ: int := 2
  const FBIRD_CONCURRENCY: int := 4
  const FBIRD_COMMITTED: int := 8
  const FBIRD_CONSISTENCY: int := 16
  const FBIRD_REC_NO_VERSION: int := 32
  const FBIRD_REC_VERSION: int := 64
  const FBIRD_WAIT: int := 128
  const FBIRD_NOWAIT: int := 256
  const FBIRD_LOCK_PROTECTED: int := 2048
  const FBIRD_LOCK_EXCLUSIVE: int := 4096
  const FBIRD_LOCK_READ: int := 8192
  const FBIRD_LOCK_WRITE: int := 16384

  predicate Has(flags: int, bit: int)
    requires bit > 0
  {
    (flags / bit) % 2 == 1
  }

  function AccessClauses(access: Option<int>): seq<Clause> {
    if access.None? then [] else if Has(access.value, FBIRD_READ) then [Read]
    else if Has(access.value, FBIRD_WRITE) then [Write] else []
  }

  function IsolationClauses(isolation: Option<int>): seq<Clause> {
    if isolation.None? then []
    else
      var iso := isolation.value;
      if Has(iso, FBIRD_COMMITTED) then [ReadCommitted] +
          (if Has(iso, FBIRD_REC_VERSION) then [RecVersion] else if Has(iso, FBIRD_REC_NO_VERSION) then [NoRecVersion]
          else [])
      else if Has(iso, FBIRD_CONSISTENCY) then [Consistency] else if Has(iso, FBIRD_CONCURRENCY) then [Concurrency]
      else []
  }

  function ResolutionClauses(resolution: Option<int>): seq<Clause> {
    if resolution.None? then [] else if Has(resolution.value, FBIRD_NOWAIT) then [NoWait]
    else if Has(resolution.value, FBIRD_WAIT) then [Wait] else []
  }

  function TimeoutClauses(timeout: Option<int>): seq<Clause> {
    if timeout.Some? && 0 < timeout.value <= 0x7FFF then [LockTimeout(timeout.value)] else []
  }

  /** What the options outside `tables` ask for. */
  function Wanted(o: Options): seq<Clause> {
    AccessClauses(o.access) + IsolationClauses(o.isolation) + ResolutionClauses(o.resolution) +
        TimeoutClauses(o.timeout)
      + if o.readConsistency then [ReadConsistency] else []
  }

  /** Whether a table entry asks for a lock: it has a name, integer flags and a direction. */
  predicate Asks(t: Table) {
    t.name.Some? && t.flags.Some? && (Has(t.flags.value, FBIRD_LOCK_WRITE) || Has(t.flags.value, FBIRD_LOCK_READ))
  }

  function LockOf(t: Table): (c: Clause)
    requires Asks(t)
    ensures c.Lock?
  {
    var f := t.flags.value;
    Lock(Has(f, FBIRD_LOCK_WRITE), t.name.value, if Has(f, FBIRD_LOCK_PROTECTED) then Protected
    else if Has(f, FBIRD_LOCK_EXCLUSIVE) then Exclusive else Shared)
  }

  function Locks(tables: seq<Table>): seq<Clause> {
    if tables == [] then [] else (if Asks(tables[0]) then [LockOf(tables[0])] else []) + Locks(tables[1..])
  }

  /** A lock as it is written: the length of the name is cut to one byte, and so is the name. */
  function Cut(c: Clause): Clause
    requires c.Lock?
  {
    c.(table := c.table[..|c.table| % 256])
  }

  // ------------------------------------------------------------ the block that is built

  /** Everything in front of the table locks. read_consistency is written with a byte 1 after its tag. */
  function Head(o: Options, rc: Tag): seq<Byte> {
    [VERSION3] + AllBytes(Wanted(o), rc) + if o.readConsistency then [1] else []
  }

  /** The bytes of one table lock. */
  function Entry(t: Table, rc: Tag): (e: seq<Byte>)
    requires Asks(t)
    ensures |e| >= 3 && (e[0] == 10 || e[0] == 11) && e == Bytes(Cut(LockOf(t)), rc)
  {
    Bytes(Cut(LockOf(t)), rc)
  }

  /** The table locks that go into a block of which `used` bytes are taken: whole entries as long as they
      fit, and the direction byte of the first that does not, if there is room for that. */
  function Placed(tables: seq<Table>, used: nat, rc: Tag): seq<Byte> {
    if tables == [] then []
    else if !Asks(tables[0]) then Placed(tables[1..], used, rc)
    else
      var e := Entry(tables[0], rc);
      if used + |e| <= TPB_MAX_SIZE then e + Placed(tables[1..], used + |e|, rc)
      else if used < TPB_MAX_SIZE then [e[0]] else []
  }

  function Block(o: Options, rc: Tag): seq<Byte> { Head(o, rc) + Placed(o.tables, |Head(o, rc)|, rc) }

  /** The locks that are written as a whole. */
  function Whole(tables: seq<Table>, used: nat, rc: Tag): seq<Clause> {
    if tables == [] then []
    else if !Asks(tables[0]) then Whole(tables[1..], used, rc)
    else
      var e := Entry(tables[0], rc);
      if used + |e| <= TPB_MAX_SIZE then [Cut(LockOf(tables[0]))] + Whole(tables[1..], used + |e|, rc) else []
  }

  /** The byte after them, if any: the direction of the first lock that does not fit. */
  function Stray(tables: seq<Table>, used: nat, rc: Tag): seq<Byte> {
    if tables == [] then []
    else if !Asks(tables[0]) then Stray(tables[1..], used, rc)
    else
      var e := Entry(tables[0], rc);
      if used + |e| <= TPB_MAX_SIZE then Stray(tables[1..], used + |e|, rc) else if used < TPB_MAX_SIZE then [e[0]]
      else []
  }

  /** Whole entries, then at most one stray byte; and never past the end of the buffer. */
  lemma {:induction false} PlacedIs(tables: seq<Table>, used: nat, rc: Tag)
    requires used <= TPB_MAX_SIZE
    ensures Placed(tables, used, rc) == AllBytes(Whole(tables, used, rc), rc) + Stray(tables, used, rc)
    ensures var stray := Stray(tables, used, rc); stray == [] || stray == [10] || stray == [11]
    ensures used + |Placed(tables, used, rc)| <= TPB_MAX_SIZE
    ensures forall c :: c in Whole(tables, used, rc) ==> Readable(c)
  {
    hide Asks, Bytes, LockOf;
    if tables != [] {
      if !Asks(tables[0]) { PlacedIs(tables[1..], used, rc); }
      else {
        var (c, e) := (Cut(LockOf(tables[0])), Entry(tables[0], rc));
        if used + |e| <= TPB_MAX_SIZE {
          PlacedIs(tables[1..], used + |e|, rc);
          var rest := Whole(tables[1..], used + |e|, rc);
          assert ([c] + rest)[1..] == rest;
          assert e + (AllBytes(rest, rc) + Stray(tables[1..], used + |e|, rc)) == (e + AllBytes(rest, rc)) +
                 Stray(tables[1..], used + |e|, rc);
        }
      }
    }
  }

  /** A lock that does not fit leaves its stray byte unless the buffer is full. */
  lemma {:induction false} StrayIs(tables: seq<Table>, used: nat, rc: Tag)
    requires used <= TPB_MAX_SIZE
    ensures var whole := Whole(tables, used, rc);
            Stray(tables, used, rc) == [] <==>
              |whole| == |Locks(tables)| || used + |AllBytes(whole, rc)| == TPB_MAX_SIZE
  {
    hide Asks, Bytes, LockOf;
    if tables != [] {
      if !Asks(tables[0]) { StrayIs(tables[1..], used, rc); assert Locks(tables) == Locks(tables[1..]); }
      else {
        var (c, e) := (Cut(LockOf(tables[0])), Entry(tables[0], rc));
        assert Locks(tables)[1..] == Locks(tables[1..]);
        if used + |e| <= TPB_MAX_SIZE {
          StrayIs(tables[1..], used + |e|, rc);
          var rest := Whole(tables[1..], used + |e|, rc);
          assert ([c] + rest)[1..] == rest;
        }
      }
    }
  }

  /** The locks written are the first of those asked for, names cut; if not all are, the next does not fit. */
  lemma {:induction false} WholeIsPrefix(tables: seq<Table>, used: nat, rc: Tag)
    requires used <= TPB_MAX_SIZE
    ensures Prefix(Locks(tables), Whole(tables, used, rc), used, rc)
  {
    hide Asks, Bytes, LockOf, Cut, Prefix, AllBytes;
    if tables == [] { PrefixOfNone(used, rc); }
    else if !Asks(tables[0]) { WholeIsPrefix(tables[1..], used, rc); assert Locks(tables) == Locks(tables[1..]); }
    else {
      var (l, rest) := (LockOf(tables[0]), tables[1..]);
      assert Locks(tables) == [l] + Locks(rest);
      LocksAreLocks(rest);
      if used + |Bytes(Cut(l), rc)| <= TPB_MAX_SIZE {
        var more := used + |Bytes(Cut(l), rc)|;
        WholeIsPrefix(rest, more, rc);
        PrefixGrows(l, Locks(rest), Whole(rest, more, rc), used, rc);
      } else {
        PrefixStops(l, Locks(rest), used, rc);
      }
    }
  }

  /** `whole` is the beginning of `locks`, names cut, and the lock behind it does not fit after `used` bytes. */
  predicate Prefix(locks: seq<Clause>, whole: seq<Clause>, used: nat, rc: Tag) {
    && |whole| <= |locks| && (forall i :: 0 <= i < |locks| ==> locks[i].Lock?)
    && (forall i :: 0 <= i < |whole| ==> whole[i] == Cut(locks[i]))
    && (|whole| < |locks| ==> used + |AllBytes(whole, rc)| + |Bytes(Cut(locks[|whole|]), rc)| > TPB_MAX_SIZE)
  }

  lemma PrefixOfNone(used: nat, rc: Tag)
    ensures Prefix([], [], used, rc)
  {}

  lemma PrefixStops(l: Clause, locks: seq<Clause>, used: nat, rc: Tag)
    requires l.Lock? && (forall i :: 0 <= i < |locks| ==> locks[i].Lock?) && used + |Bytes(Cut(l), rc)| > TPB_MAX_SIZE
    ensures Prefix([l] + locks, [], used, rc)
  {
    hide Cut, Bytes;
  }

  lemma PrefixGrows(l: Clause, locks: seq<Clause>, whole: seq<Clause>, used: nat, rc: Tag)
    requires l.Lock? && Prefix(locks, whole, used + |Bytes(Cut(l), rc)|, rc)
    ensures Prefix([l] + locks, [Cut(l)] + whole, used, rc)
  {
    hide Cut, Bytes;
    var (a, b) := ([l] + locks, [Cut(l)] + whole);
    assert b[1..] == whole && |AllBytes(b, rc)| == |Bytes(Cut(l), rc)| + |AllBytes(whole, rc)|;
    assert forall i :: 0 <= i < |locks| ==> a[i + 1] == locks[i];
    forall i | 0 <= i < |b| ensures b[i] == Cut(a[i]) {
      if i > 0 { assert b[i] == whole[i - 1] && a[i] == locks[i - 1]; }
    }
  }

  lemma {:induction false} LocksAreLocks(tables: seq<Table>)
    ensures forall i :: 0 <= i < |Locks(tables)| ==> Locks(tables)[i].Lock?
  {
    if tables != [] { LocksAreLocks(tables[1..]); }
  }

  /** The block never exceeds its buffer. */
  lemma BlockFits(o: Options, rc: Tag)
    ensures |Head(o, rc)| <= 12 && |Block(o, rc)| <= TPB_MAX_SIZE
  {
    HeadParts(o, rc);
    PlacedIs(o.tables, |Head(o, rc)|, rc);
  }

  /** What a server reads in front of the locks: the wanted options, and a consistency clause nobody asked
      for when read_consistency is on. */
  function Said(o: Options): seq<Clause> { Wanted(o) + if o.readConsistency then [Consistency] else [] }

  lemma {:induction false} StrayByte(cs: seq<Clause>, stray: Byte, rc: Tag)
    requires (forall c :: c in cs ==> Readable(c)) && (stray == 10 || stray == 11)
    ensures ReadClauses(AllBytes(cs, rc) + [stray], rc) == None
  {
    if cs == [] { assert AllBytes(cs, rc) + [stray] == [stray]; }
    else {
      var (b, rest) := (Bytes(cs[0], rc), AllBytes(cs[1..], rc) + [stray]);
      assert AllBytes(cs, rc) + [stray] == b + rest;
      NextReads(cs[0], rest, rc);
      assert (b + rest)[|b|..] == rest;
      StrayByte(cs[1..], stray, rc);
    }
  }

  /** Reading the block gives the clauses it says and the locks that fitted; a stray byte makes it unreadable. */
  lemma BlockReads(o: Options, rc: Tag)
    ensures var used := |Head(o, rc)|;
            ReadBlock(Block(o, rc), rc) ==
              if Stray(o.tables, used, rc) == [] then Some(Said(o) + Whole(o.tables, used, rc)) else None
  {
    hide Wanted, Has, Readable, Head, Whole, Stray, Placed, AllBytes;
    BlockFits(o, rc);
    var used := |Head(o, rc)|;
    PlacedIs(o.tables, used, rc);
    var (whole, stray) := (Whole(o.tables, used, rc), Stray(o.tables, used, rc));
    var cs := Said(o) + whole;
    HeadSays(o, rc);
    AllBytesConcat(Said(o), whole, rc);
    assert Block(o, rc)[1..] == AllBytes(cs, rc) + stray;
    SaidReadable(o);
    assert forall c :: c in cs ==> Readable(c);
    if stray == [] {
      assert AllBytes(cs, rc) + stray == AllBytes(cs, rc);
      ReadsBack(cs, rc);
    } else {
      StrayByte(cs, stray[0], rc);
      assert stray == [stray[0]];
    }
  }

  lemma HeadSays(o: Options, rc: Tag)
    ensures Head(o, rc) == [VERSION3] + AllBytes(Said(o), rc)
  {
    hide Wanted;
    AllBytesConcat(Wanted(o), if o.readConsistency then [Consistency] else [], rc);
    Single(Consistency, rc);
    assert AllBytes(Wanted(o), rc) + [] == AllBytes(Wanted(o), rc);
  }

  lemma Single(c: Clause, rc: Tag)
    ensures AllBytes([c], rc) == Bytes(c, rc) && AllBytes([], rc) == []
  {
    assert [c][1..] == [] && Bytes(c, rc) + [] == Bytes(c, rc);
  }

  lemma SaidReadable(o: Options)
    ensures forall c :: c in Said(o) ==> Readable(c)
  {
    hide AccessClauses, IsolationClauses, ResolutionClauses, TimeoutClauses;
    PartsReadable(o);
  }

  lemma PartsReadable(o: Options)
    ensures forall c :: c in AccessClauses(o.access) || c in IsolationClauses(o.isolation) ==> Readable(c)
    ensures forall c :: c in ResolutionClauses(o.resolution) || c in TimeoutClauses(o.timeout) ==> Readable(c)
  {
    hide Has;
  }

  /** The block says exactly what the options ask for, table by table, just when read_consistency is off, every
      name asked for has at most 255 bytes, and the whole of it fits. */
  lemma BlockSaysWhatIsAsked(o: Options, rc: Tag)
    ensures ReadBlock(Block(o, rc), rc) == Some(Wanted(o) + Locks(o.tables)) <==>
              && !o.readConsistency && ShortNames(o.tables)
              && |Head(o, rc)| + |AllBytes(Locks(o.tables), rc)| <= TPB_MAX_SIZE
  {
    hide Wanted, Has, Head, Block, Asks, AllBytes;
    BlockReads(o, rc);
    BlockFits(o, rc);
    var used := |Head(o, rc)|;
    var (wanted, whole, locks) := (Wanted(o), Whole(o.tables, used, rc), Locks(o.tables));
    AllWhole(o.tables, used, rc);
    if o.readConsistency {
      LocksAreLocks(o.tables);
      ConsistencyShows(wanted, whole, locks);
    } else {
      assert wanted + [] == wanted;
      SameEnds(wanted, whole, locks);
    }
  }

  predicate ShortNames(tables: seq<Table>) { forall t :: t in tables && Asks(t) ==> |t.name.value| < 256 }

  lemma ConsistencyShows(a: seq<Clause>, whole: seq<Clause>, locks: seq<Clause>)
    requires forall i :: 0 <= i < |locks| ==> locks[i].Lock?
    ensures a + [Consistency] + whole != a + locks
  {
    assert (a + [Consistency] + whole)[|a|] == Consistency;
    if locks != [] { assert (a + locks)[|a|] == locks[0]; }
  }

  lemma SameEnds(a: seq<Clause>, b: seq<Clause>, c: seq<Clause>)
    ensures a + b == a + c <==> b == c
  {
    assert (a + b)[|a|..] == b && (a + c)[|a|..] == c;
  }

  lemma {:induction false} AllWhole(tables: seq<Table>, used: nat, rc: Tag)
    requires used <= TPB_MAX_SIZE
    ensures Whole(tables, used, rc) == Locks(tables) && Stray(tables, used, rc) == [] <==>
              ShortNames(tables) && used + |AllBytes(Locks(tables), rc)| <= TPB_MAX_SIZE
  {
    hide Has, Asks, LockOf;
    if tables != [] {
      var (t, rest) := (tables[0], tables[1..]);
      assert tables == [t] + rest;
      if !Asks(t) { assert Locks(tables) == Locks(rest); AllWhole(rest, used, rc); }
      else {
        var c := LockOf(t);
        TableOf(t);
        assert Locks(tables)[0] == c && Locks(tables)[1..] == Locks(rest);
        if |c.table| < 256 && used + |Bytes(c, rc)| <= TPB_MAX_SIZE { AllWhole(rest, used + |Bytes(c, rc)|, rc); }
      }
    }
  }

  lemma TableOf(t: Table)
    requires Asks(t)
    ensures var c := LockOf(t); c.table == t.name.value && (|c.table| < 256 <==> Cut(c) == c)
  {
    var c := LockOf(t);
    if |c.table| < 256 { assert c.table[..|c.table| % 256] == c.table; }
    else { assert |Cut(c).table| < 256; }
  }

  // ------------------------------------------------------------ which option says what

  /** An option that is an integer with the given bit. */
  predicate Bit(v: Option<int>, bit: int)
    requires bit > 0
  {
    v.Some? && v.value / bit % 2 == 1
  }

  /** What a server reads in a block, over the bits of the options alone: every clause, and when it is there. */
  lemma OptionsDecide(o: Options, rc: Tag, cs: seq<Clause>)
    requires ReadBlock(Block(o, rc), rc) == Some(cs)
    ensures Read in cs <==> Bit(o.access, FBIRD_READ)
    ensures Write in cs <==> Bit(o.access, FBIRD_WRITE) && !Bit(o.access, FBIRD_READ)
    ensures ReadCommitted in cs <==> Bit(o.isolation, FBIRD_COMMITTED)
    ensures RecVersion in cs <==> Bit(o.isolation, FBIRD_COMMITTED) && Bit(o.isolation, FBIRD_REC_VERSION)
    ensures NoRecVersion in cs <==>
              Bit(o.isolation, FBIRD_COMMITTED) && Bit(o.isolation, FBIRD_REC_NO_VERSION) &&
              !Bit(o.isolation, FBIRD_REC_VERSION)
    ensures Consistency in cs <==>
              o.readConsistency || (Bit(o.isolation, FBIRD_CONSISTENCY) && !Bit(o.isolation, FBIRD_COMMITTED))
    ensures Concurrency in cs <==>
              Bit(o.isolation, FBIRD_CONCURRENCY) && !Bit(o.isolation, FBIRD_CONSISTENCY) &&
              !Bit(o.isolation, FBIRD_COMMITTED)
    ensures NoWait in cs <==> Bit(o.resolution, FBIRD_NOWAIT)
    ensures Wait in cs <==> Bit(o.resolution, FBIRD_WAIT) && !Bit(o.resolution, FBIRD_NOWAIT)
    ensures forall n: nat :: LockTimeout(n) in cs <==> o.timeout == Some(n) && 0 < n <= 32767
    ensures ReadConsistency in cs <==> o.readConsistency
  {
    hide Block, ReadBlock, Says, Bit;
    BlockSays(o, rc, cs);
    AccessSays(o);
    IsolationSays(o);
    ResolutionSays(o);
    TimeoutSays(o);
  }

  lemma BlockSays(o: Options, rc: Tag, cs: seq<Clause>)
    requires ReadBlock(Block(o, rc), rc) == Some(cs)
    ensures forall c: Clause :: !c.Lock? ==> (c in cs <==> Says(o, c))
  {
    hide Block, Head, Whole, Stray, ReadBlock, Said, Says;
    BlockReads(o, rc);
    BlockFits(o, rc);
    var whole := Whole(o.tables, |Head(o, rc)|, rc);
    WholeAreLocks(o.tables, |Head(o, rc)|, rc);
    forall c: Clause | !c.Lock? ensures c in cs <==> Says(o, c) {
      SaidIs(o, c);
      assert cs == Said(o) + whole;
    }
  }

  lemma AccessSays(o: Options)
    ensures Says(o, Read) <==> Bit(o.access, FBIRD_READ)
    ensures Says(o, Write) <==> Bit(o.access, FBIRD_WRITE) && !Bit(o.access, FBIRD_READ)
  {
    AccessDecides(o.access);
    IsolationDecides(o.isolation);
    ResolutionDecides(o.resolution);
    TimeoutDecides(o.timeout);
    hide AccessClauses, IsolationClauses, ResolutionClauses, TimeoutClauses, Bit;
  }

  lemma IsolationSays(o: Options)
    ensures var v := o.isolation;
            && (Says(o, ReadCommitted) <==> Bit(v, FBIRD_COMMITTED))
            && (Says(o, RecVersion) <==> Bit(v, FBIRD_COMMITTED) && Bit(v, FBIRD_REC_VERSION))
            && (Says(o, NoRecVersion) <==>
                 Bit(v, FBIRD_COMMITTED) && Bit(v, FBIRD_REC_NO_VERSION) && !Bit(v, FBIRD_REC_VERSION))
            && (Says(o, Consistency) <==>
                 o.readConsistency || (Bit(v, FBIRD_CONSISTENCY) && !Bit(v, FBIRD_COMMITTED)))
            && (Says(o, Concurrency) <==>
                 Bit(v, FBIRD_CONCURRENCY) && !Bit(v, FBIRD_CONSISTENCY) && !Bit(v, FBIRD_COMMITTED))
  {
    AccessDecides(o.access);
    IsolationDecides(o.isolation);
    ResolutionDecides(o.resolution);
    TimeoutDecides(o.timeout);
    hide AccessClauses, IsolationClauses, ResolutionClauses, TimeoutClauses, Bit;
  }

  lemma ResolutionSays(o: Options)
    ensures Says(o, NoWait) <==> Bit(o.resolution, FBIRD_NOWAIT)
    ensures Says(o, Wait) <==> Bit(o.resolution, FBIRD_WAIT) && !Bit(o.resolution, FBIRD_NOWAIT)
  {
    AccessDecides(o.access);
    IsolationDecides(o.isolation);
    ResolutionDecides(o.resolution);
    TimeoutDecides(o.timeout);
    hide AccessClauses, IsolationClauses, ResolutionClauses, TimeoutClauses, Bit;
  }

  lemma TimeoutSays(o: Options)
    ensures forall n: nat :: Says(o, LockTimeout(n)) <==> o.timeout == Some(n) && 0 < n <= 32767
    ensures Says(o, ReadConsistency) <==> o.readConsistency
  {
    AccessDecides(o.access);
    IsolationDecides(o.isolation);
    ResolutionDecides(o.resolution);
    TimeoutDecides(o.timeout);
    hide AccessClauses, IsolationClauses, ResolutionClauses, TimeoutClauses;
  }

  /** One of the four lists has the clause, or read_consistency puts it there. */
  predicate Says(o: Options, c: Clause) {
    || c in AccessClauses(o.access) || c in IsolationClauses(o.isolation)
    || c in ResolutionClauses(o.resolution) || c in TimeoutClauses(o.timeout)
    || (o.readConsistency && (c == ReadConsistency || c == Consistency))
  }

  lemma SaidIs(o: Options, c: Clause)
    ensures c in Said(o) <==> Says(o, c)
  {
    hide AccessClauses, IsolationClauses, ResolutionClauses, TimeoutClauses;
  }

  lemma WholeAreLocks(tables: seq<Table>, used: nat, rc: Tag)
    requires used <= TPB_MAX_SIZE
    ensures forall c :: c in Whole(tables, used, rc) ==> c.Lock?
  {
    hide Whole, Locks;
    WholeIsPrefix(tables, used, rc);
  }

  lemma AccessDecides(v: Option<int>)
    ensures var cs := AccessClauses(v);
            && (Read in cs <==> Bit(v, FBIRD_READ)) && (Write in cs <==> Bit(v, FBIRD_WRITE) && !Bit(v, FBIRD_READ))
            && forall c :: c in cs ==> c.Read? || c.Write?
  {}

  lemma IsolationDecides(v: Option<int>)
    ensures var cs := IsolationClauses(v);
            && (ReadCommitted in cs <==> Bit(v, FBIRD_COMMITTED))
            && (RecVersion in cs <==> Bit(v, FBIRD_COMMITTED) && Bit(v, FBIRD_REC_VERSION))
            && (NoRecVersion in cs <==>
                 Bit(v, FBIRD_COMMITTED) && Bit(v, FBIRD_REC_NO_VERSION) && !Bit(v, FBIRD_REC_VERSION))
            && (Consistency in cs <==> Bit(v, FBIRD_CONSISTENCY) && !Bit(v, FBIRD_COMMITTED))
            && (Concurrency in cs <==>
                 Bit(v, FBIRD_CONCURRENCY) && !Bit(v, FBIRD_CONSISTENCY) && !Bit(v, FBIRD_COMMITTED))
            && forall c :: c in cs ==>
                 c.ReadCommitted? || c.RecVersion? || c.NoRecVersion? || c.Consistency? || c.Concurrency?
  {}

  lemma ResolutionDecides(v: Option<int>)
    ensures var cs := ResolutionClauses(v);
            && (NoWait in cs <==> Bit(v, FBIRD_NOWAIT)) && (Wait in cs <==> Bit(v, FBIRD_WAIT) && !Bit(v, FBIRD_NOWAIT))
            && forall c :: c in cs ==> c.NoWait? || c.Wait?
  {}

  lemma TimeoutDecides(v: Option<int>)
    ensures var cs := TimeoutClauses(v);
            && (forall n: nat :: LockTimeout(n) in cs <==> v == Some(n) && 0 < n <= 32767)
            && forall c :: c in cs ==> c.LockTimeout?
  {}

  function LocksIn(cs: seq<Clause>): seq<Clause> {
    if cs == [] then [] else (if cs[0].Lock? then [cs[0]] else []) + LocksIn(cs[1..])
  }

  /** The table entries that ask for a lock: named, with a direction. */
  function Asking(tables: seq<Table>): seq<Table> {
    if tables == [] then []
    else
      var t := tables[0];
      (if t.name.Some? && (Bit(t.flags, FBIRD_LOCK_WRITE) || Bit(t.flags, FBIRD_LOCK_READ)) then [t] else [])
        + Asking(tables[1..])
  }

  /** Clause `c` is the lock that entry `t` asks for, its name cut modulo 256. */
  predicate LockSays(c: Clause, t: Table) {
    && c.Lock? && t.name.Some? && c.table == t.name.value[..|t.name.value| % 256]
    && c.write == Bit(t.flags, FBIRD_LOCK_WRITE)
    && c.mode == if Bit(t.flags, FBIRD_LOCK_PROTECTED) then Protected
                 else if Bit(t.flags, FBIRD_LOCK_EXCLUSIVE) then Exclusive else Shared
  }

  /** The locks that a server reads are those of the first entries that ask for one, in order; all of them,
      unless the block is full. */
  lemma TablesDecide(o: Options, rc: Tag, cs: seq<Clause>)
    requires ReadBlock(Block(o, rc), rc) == Some(cs)
    ensures var (locks, asking) := (LocksIn(cs), Asking(o.tables));
            && |locks| <= |asking| && (forall i :: 0 <= i < |locks| ==> LockSays(locks[i], asking[i]))
            && (|locks| == |asking| || |Block(o, rc)| == TPB_MAX_SIZE)
  {
    hide ReadBlock, Head, Whole, Stray, Wanted, LockSays, Asking, LocksIn, Placed, AllBytes, Locks, Cut;
    var used := |Head(o, rc)|;
    var whole := Whole(o.tables, used, rc);
    BlockReads(o, rc);
    BlockFits(o, rc);
    WholeIsPrefix(o.tables, used, rc);
    WholeAreLocks(o.tables, used, rc);
    StrayIs(o.tables, used, rc);
    PlacedIs(o.tables, used, rc);
    SaidNoLocks(o);
    LocksInConcat(Said(o), whole);
    AllLocks(whole);
    NoLocks(Said(o));
    AskingIs(o.tables);
    assert whole == LocksIn(cs);
  }

  lemma {:induction false} LocksInConcat(a: seq<Clause>, b: seq<Clause>)
    ensures LocksIn(a + b) == LocksIn(a) + LocksIn(b)
  {
    if a == [] { assert a + b == b; }
    else {
      assert (a + b)[0] == a[0] && (a + b)[1..] == a[1..] + b;
      LocksInConcat(a[1..], b);
    }
  }

  lemma {:induction false} AllLocks(cs: seq<Clause>)
    requires forall c :: c in cs ==> c.Lock?
    ensures LocksIn(cs) == cs
  {
    if cs != [] { AllLocks(cs[1..]); }
  }

  lemma {:induction false} NoLocks(cs: seq<Clause>)
    requires forall c :: c in cs ==> !c.Lock?
    ensures LocksIn(cs) == []
  {
    if cs != [] { NoLocks(cs[1..]); }
  }

  lemma SaidNoLocks(o: Options)
    ensures forall c :: c in Said(o) ==> !c.Lock?
  {
    hide AccessClauses, IsolationClauses, ResolutionClauses, TimeoutClauses, Bit;
    AccessDecides(o.access);
    IsolationDecides(o.isolation);
    ResolutionDecides(o.resolution);
    TimeoutDecides(o.timeout);
  }

  lemma {:induction false} AskingIs(tables: seq<Table>)
    ensures |Asking(tables)| == |Locks(tables)|
    ensures forall i :: 0 <= i < |Locks(tables)| ==>
              Locks(tables)[i].Lock? && LockSays(Cut(Locks(tables)[i]), Asking(tables)[i])
  {
    hide LockSays, Cut, LockOf;
    if tables != [] {
      AskingIs(tables[1..]);
      var (t, locks, rest) := (tables[0], Locks(tables), Locks(tables[1..]));
      if Asks(t) {
        LockOfSays(t);
        assert locks == [LockOf(t)] + rest && Asking(tables) == [t] + Asking(tables[1..]);
      } else { assert locks == rest && Asking(tables) == Asking(tables[1..]); }
    }
  }

  lemma LockOfSays(t: Table)
    requires Asks(t)
    ensures LockSays(Cut(LockOf(t)), t)
  {}

  function Plain(access: Option<int>, isolation: Option<int>, resolution: Option<int>, timeout: Option<int>): Options {
    Options(access, isolation, resolution, timeout, false, [])
  }

  /** The bytes that the client library's header gives to each option. */
  lemma AccessBlocks(rc: Tag)
    ensures Block(Plain(Some(FBIRD_READ), None, None, None), rc) == [3, 8]
    ensures Block(Plain(Some(FBIRD_WRITE), None, None, None), rc) == [3, 9]
  {
    hide Block;
    PlainIs(Some(FBIRD_READ), None, None, None, [Read], rc);
    PlainIs(Some(FBIRD_WRITE), None, None, None, [Write], rc);
  }

  lemma CommittedBlocks(rc: Tag)
    ensures Block(Plain(None, Some(FBIRD_COMMITTED + FBIRD_REC_VERSION), None, None), rc) == [3, 15, 17]
    ensures Block(Plain(None, Some(FBIRD_COMMITTED + FBIRD_REC_NO_VERSION), None, None), rc) == [3, 15, 18]
  {
    hide Block;
    assert Has(72, FBIRD_COMMITTED) && Has(72, FBIRD_REC_VERSION);
    assert Has(40, FBIRD_COMMITTED) && !Has(40, FBIRD_REC_VERSION) && Has(40, FBIRD_REC_NO_VERSION);
    PlainIs(None, Some(72), None, None, [ReadCommitted, RecVersion], rc);
    PlainIs(None, Some(40), None, None, [ReadCommitted, NoRecVersion], rc);
  }

  lemma SnapshotBlocks(rc: Tag)
    ensures Block(Plain(None, Some(FBIRD_CONSISTENCY), None, None), rc) == [3, 1]
    ensures Block(Plain(None, Some(FBIRD_CONCURRENCY), None, None), rc) == [3, 2]
  {
    hide Block;
    PlainIs(None, Some(FBIRD_CONSISTENCY), None, None, [Consistency], rc);
    PlainIs(None, Some(FBIRD_CONCURRENCY), None, None, [Concurrency], rc);
  }

  lemma WaitBlocks(rc: Tag)
    ensures Block(Plain(None, None, Some(FBIRD_WAIT), None), rc) == [3, 6]
    ensures Block(Plain(None, None, Some(FBIRD_NOWAIT), None), rc) == [3, 7]
  {
    hide Block;
    assert Has(128, FBIRD_WAIT) && !Has(128, FBIRD_NOWAIT) && Has(256, FBIRD_NOWAIT);
    PlainIs(None, None, Some(FBIRD_WAIT), None, [Wait], rc);
    PlainIs(None, None, Some(FBIRD_NOWAIT), None, [NoWait], rc);
  }

  lemma TimeoutBlock(rc: Tag)
    ensures Block(Plain(None, None, None, Some(300)), rc) == [3, 21, 2, 44, 1]
  {
    hide Block;
    PlainIs(None, None, None, Some(300), [LockTimeout(300)], rc);
  }

  /** One lock, on table A. */
  lemma LockBlocks(rc: Tag)
    ensures Block(OneLock(FBIRD_LOCK_WRITE + FBIRD_LOCK_PROTECTED), rc) == [3, 11, 1, 65, 4]
    ensures Block(OneLock(FBIRD_LOCK_READ + FBIRD_LOCK_EXCLUSIVE), rc) == [3, 10, 1, 65, 5]
    ensures Block(OneLock(FBIRD_LOCK_READ), rc) == [3, 10, 1, 65, 3]
  {
    hide Block;
    assert Has(18432, FBIRD_LOCK_WRITE) && Has(18432, FBIRD_LOCK_PROTECTED);
    assert !Has(12288, FBIRD_LOCK_WRITE) && Has(12288, FBIRD_LOCK_READ) && !Has(12288, FBIRD_LOCK_PROTECTED) &&
           Has(12288, FBIRD_LOCK_EXCLUSIVE);
    assert !Has(8192, FBIRD_LOCK_WRITE) && Has(8192, FBIRD_LOCK_READ) && !Has(8192, FBIRD_LOCK_PROTECTED) &&
           !Has(8192, FBIRD_LOCK_EXCLUSIVE);
    LockIs(18432, rc);
    LockIs(12288, rc);
    LockIs(8192, rc);
  }

  function OneLock(flags: int): Options { Options(None, None, None, None, false, [Table(Some([65]), Some(flags))]) }

  lemma LockIs(flags: int, rc: Tag)
    requires Asks(Table(Some([65]), Some(flags)))
    ensures Block(OneLock(flags), rc) ==
              [3, if Has(flags, FBIRD_LOCK_WRITE) then 11 else 10, 1, 65,
               if Has(flags, FBIRD_LOCK_PROTECTED) then 4 else if Has(flags, FBIRD_LOCK_EXCLUSIVE) then 5 else 3]
  {
    hide Has, Entry, Placed, Head;
    var t := Table(Some([65]), Some(flags));
    EntryIs(t, rc);
    assert [65 as Byte][..1] == [65];
    NothingWanted(flags, rc);
    OnePlaced(t, 1, rc);
  }

  lemma NothingWanted(flags: int, rc: Tag)
    ensures Head(OneLock(flags), rc) == [VERSION3]
  {
    assert Wanted(OneLock(flags)) == [];
  }

  lemma OnePlaced(t: Table, used: nat, rc: Tag)
    requires Asks(t) && used + |Entry(t, rc)| <= TPB_MAX_SIZE
    ensures Placed([t], used, rc) == Entry(t, rc)
  {
    hide Asks, Entry;
    assert [t][1..] == [] && Placed([], used + |Entry(t, rc)|, rc) == [];
  }

  lemma PlainIs(access: Option<int>, isolation: Option<int>, resolution: Option<int>, timeout: Option<int>,
                cs: seq<Clause>, rc: Tag)
    requires cs == AccessClauses(access) + IsolationClauses(isolation) + ResolutionClauses(resolution) +
                   TimeoutClauses(timeout)
    requires 1 <= |cs| <= 2
    ensures Block(Plain(access, isolation, resolution, timeout), rc) ==
              [VERSION3] + Bytes(cs[0], rc) + if |cs| == 2 then Bytes(cs[1], rc) else []
  {
    hide AccessClauses, IsolationClauses, ResolutionClauses, TimeoutClauses, Bytes;
    assert Wanted(Plain(access, isolation, resolution, timeout)) == cs;
    if |cs| == 2 {
      assert cs[1..] == [cs[1]];
      Single(cs[1], rc);
    } else {
      Single(cs[0], rc);
      assert cs == [cs[0]];
    }
  }

  /** The head, option by option. */
  lemma HeadParts(o: Options, rc: Tag)
    ensures Head(o, rc) == [VERSION3] + AllBytes(AccessClauses(o.access), rc) +
            AllBytes(IsolationClauses(o.isolation), rc)
                             + AllBytes(ResolutionClauses(o.resolution), rc) + AllBytes(TimeoutClauses(o.timeout), rc) +
                                 Flag(o, rc)
    ensures |AllBytes(AccessClauses(o.access), rc)| <= 1 && |AllBytes(IsolationClauses(o.isolation), rc)| <= 2
    ensures |AllBytes(ResolutionClauses(o.resolution), rc)| <= 1 && |AllBytes(TimeoutClauses(o.timeout), rc)| <= 4
    ensures |Head(o, rc)| <= 12
  {
    var (a, i, r, t) := (AccessClauses(o.access), IsolationClauses(o.isolation), ResolutionClauses(o.resolution),
                         TimeoutClauses(o.timeout));
    SmallParts(o, rc);
    hide AccessClauses, IsolationClauses, ResolutionClauses, TimeoutClauses, AllBytes;
    var f := if o.readConsistency then [ReadConsistency] else [];
    AllBytesConcat(a + i + r + t, f, rc);
    AllBytesConcat(a + i + r, t, rc);
    AllBytesConcat(a + i, r, rc);
    AllBytesConcat(a, i, rc);
    Single(ReadConsistency, rc);
  }

  function Flag(o: Options, rc: Tag): seq<Byte> {
    if o.readConsistency then var b: Byte := rc; [b, 1] else []
  }

  lemma SmallParts(o: Options, rc: Tag)
    ensures |AllBytes(AccessClauses(o.access), rc)| <= 1 && |AllBytes(IsolationClauses(o.isolation), rc)| <= 2
    ensures |AllBytes(ResolutionClauses(o.resolution), rc)| <= 1 && |AllBytes(TimeoutClauses(o.timeout), rc)| <= 4
  {
    hide Has, AllBytes;
    forall c: Clause ensures AllBytes([c], rc) == Bytes(c, rc) && AllBytes([], rc) == [] { Single(c, rc); }
    AllBytesConcat([ReadCommitted], [RecVersion], rc);
    AllBytesConcat([ReadCommitted], [NoRecVersion], rc);
    assert [ReadCommitted] + [] == [ReadCommitted];
  }

  // ------------------------------------------------------------ building it

  /** `p` has gone from `from` past the bytes `added`. */
  ghost predicate Wrote(before: seq<Byte>, tpb: array<Byte>, from: nat, p: nat, added: seq<Byte>)
    reads tpb
  {
    from <= p <= tpb.Length && from <= |before| && tpb[..p] == before[..from] + added
  }

  method PutAccess(access: Option<int>, rc: Tag, tpb: array<Byte>, from: nat) returns (p: nat)
    requires from < tpb.Length
    modifies tpb
    ensures Wrote(old(tpb[..]), tpb, from, p, AllBytes(AccessClauses(access), rc))
  {
    hide Has;
    p := from;
    if access.Some? {
      if Has(access.value, FBIRD_READ) { tpb[p] := 8; p := p + 1; }
      else if Has(access.value, FBIRD_WRITE) { tpb[p] := 9; p := p + 1; }
    }
  }

  method PutIsolation(isolation: Option<int>, rc: Tag, tpb: array<Byte>, from: nat) returns (p: nat)
    requires from + 1 < tpb.Length
    modifies tpb
    ensures Wrote(old(tpb[..]), tpb, from, p, AllBytes(IsolationClauses(isolation), rc))
  {
    hide Has;
    p := from;
    if isolation.Some? {
      var iso := isolation.value;
      if Has(iso, FBIRD_COMMITTED) {
        tpb[p] := 15; p := p + 1;
        if Has(iso, FBIRD_REC_VERSION) { tpb[p] := 17; p := p + 1; }
        else if Has(iso, FBIRD_REC_NO_VERSION) { tpb[p] := 18; p := p + 1; }
        ghost var version := if Has(iso, FBIRD_REC_VERSION) then [RecVersion]
        else if Has(iso, FBIRD_REC_NO_VERSION) then [NoRecVersion] else [];
        AllBytesConcat([ReadCommitted], version, rc);
      } else if Has(iso, FBIRD_CONSISTENCY) { tpb[p] := 1; p := p + 1; }
      else if Has(iso, FBIRD_CONCURRENCY) { tpb[p] := 2; p := p + 1; }
    }
  }

  method PutResolution(resolution: Option<int>, rc: Tag, tpb: array<Byte>, from: nat) returns (p: nat)
    requires from < tpb.Length
    modifies tpb
    ensures Wrote(old(tpb[..]), tpb, from, p, AllBytes(ResolutionClauses(resolution), rc))
  {
    hide Has;
    p := from;
    if resolution.Some? {
      if Has(resolution.value, FBIRD_NOWAIT) { tpb[p] := 7; p := p + 1; }
      else if Has(resolution.value, FBIRD_WAIT) { tpb[p] := 6; p := p + 1; }
    }
  }

  method PutTimeout(timeout: Option<int>, rc: Tag, tpb: array<Byte>, from: nat) returns (p: nat, seconds: Option<int>)
    requires from + 3 < tpb.Length
    modifies tpb
    ensures Wrote(old(tpb[..]), tpb, from, p, AllBytes(TimeoutClauses(timeout), rc))
    ensures seconds == if TimeoutClauses(timeout) == [] then None else timeout
  {
    p, seconds := from, None;
    if timeout.Some? && timeout.value > 0 && timeout.value <= 0x7FFF {
      tpb[p] := 21; p := p + 1;
      tpb[p] := 2; p := p + 1;
      tpb[p] := timeout.value % 256; p := p + 1;
      tpb[p] := timeout.value / 256 % 256; p := p + 1;
      seconds := timeout;
    }
  }

  lemma EntryIs(t: Table, rc: Tag)
    requires Asks(t)
    ensures var (name, flags) := (t.name.value, t.flags.value);
            Entry(t, rc) == [if Has(flags, FBIRD_LOCK_WRITE) then 11 else 10] + [|name| % 256] + name[..|name| % 256]
                              + [if Has(flags, FBIRD_LOCK_PROTECTED) then 4
                              else if Has(flags, FBIRD_LOCK_EXCLUSIVE) then 5 else 3]
  {}

  method PutBytes(tpb: array<Byte>, at: nat, bytes: seq<Byte>)
    requires at + |bytes| <= tpb.Length
    modifies tpb
    ensures tpb[..at + |bytes|] == old(tpb[..at]) + bytes
  {
    forall k | 0 <= k < |bytes| { tpb[at + k] := bytes[k]; }
  }

  /** One table: direction, name and mode, or `ok` is false and at most the direction is written. */
  method PutLock(t: Table, rc: Tag, tpb: array<Byte>, from: nat) returns (p: nat, ok: bool)
    requires tpb.Length == TPB_MAX_SIZE && from <= tpb.Length && Asks(t)
    modifies tpb
    ensures ok == (from + |Entry(t, rc)| <= TPB_MAX_SIZE)
    ensures var e := Entry(t, rc);
            Wrote(old(tpb[..]), tpb, from, p, if ok then e else if from < TPB_MAX_SIZE then [e[0]] else [])
  {
    hide Has, Entry, LockOf, Bytes, Cut, AllBytes;
    EntryIs(t, rc);
    var (name, flags) := (t.name.value, t.flags.value);
    var tlen := |name| % 256;
    p, ok := from, false;
    var dir: seq<Byte> := [if Has(flags, FBIRD_LOCK_WRITE) then 11 else 10];
    if p < tpb.Length { PutBytes(tpb, p, dir); p := p + 1; }
    if p + 1 + tlen >= tpb.Length { return; }
    ghost var start := old(tpb[..])[..from];
    assert tpb[..p] == start + dir;
    PutBytes(tpb, p, [tlen]); p := p + 1;
    Regroup(start, dir, [tlen]);
    PutBytes(tpb, p, name[..tlen]); p := p + tlen;
    Regroup(start, dir + [tlen], name[..tlen]);
    var mode: seq<Byte> := [if Has(flags, FBIRD_LOCK_PROTECTED) then 4 else if Has(flags, FBIRD_LOCK_EXCLUSIVE) then 5
    else 3];
    PutBytes(tpb, p, mode); p := p + 1;
    Regroup(start, dir + [tlen] + name[..tlen], mode);
    ok := true;
  }

  /** The loop over the `tables` option. */
  method PutTables(tables: seq<Table>, rc: Tag, tpb: array<Byte>, from: nat) returns (p: nat)
    requires tpb.Length == TPB_MAX_SIZE && from <= tpb.Length
    modifies tpb
    ensures Wrote(old(tpb[..]), tpb, from, p, Placed(tables, from, rc))
  {
    hide Asks, Bytes, LockOf, Entry;
    p := from;
    var i := 0;
    ghost var done: seq<Byte> := [];
    assert tables[0..] == tables;
    while i < |tables|
      invariant i <= |tables| && Wrote(old(tpb[..]), tpb, from, p, done)
      invariant Placed(tables, from, rc) == done + Placed(tables[i..], p, rc)
    {
      var t := tables[i];
      assert tables[i..][0] == t && tables[i..][1..] == tables[i + 1..];
      i := i + 1;
      if !Asks(t) { continue; }
      var ok;
      ghost var before := p;
      p, ok := PutLock(t, rc, tpb, p);
      ghost var e := Entry(t, rc);
      Regroup(done, e, Placed(tables[i..], before + |e|, rc));
      if !ok { done := done + if before < TPB_MAX_SIZE then [e[0]] else []; break; }
      done := done + e;
    }
    assert Placed([], p, rc) == [] && done + [] == done;
  }

  lemma Regroup(a: seq<Byte>, b: seq<Byte>, c: seq<Byte>)
    ensures a + (b + c) == (a + b) + c
  {}

  /** _php_fbird_populate_trans_from_array. No index leaves the buffer; `seconds` is the timeout handed back. */
  method Populate(o: Options, rc: Tag, tpb: array<Byte>) returns (len: nat, seconds: Option<int>)
    requires tpb.Length == TPB_MAX_SIZE
    modifies tpb
    ensures len <= TPB_MAX_SIZE && tpb[..len] == Block(o, rc)
    ensures seconds == if TimeoutClauses(o.timeout) == [] then None else o.timeout
  {
    hide AccessClauses, IsolationClauses, ResolutionClauses, TimeoutClauses, Head, Placed, AllBytes;
    HeadParts(o, rc);
    tpb[0] := VERSION3;
    ghost var head: seq<Byte> := [VERSION3];
    var p := PutAccess(o.access, rc, tpb, 1);
    head := head + AllBytes(AccessClauses(o.access), rc);
    assert tpb[..p] == head;
    p := PutIsolation(o.isolation, rc, tpb, p);
    head := head + AllBytes(IsolationClauses(o.isolation), rc);
    p := PutResolution(o.resolution, rc, tpb, p);
    head := head + AllBytes(ResolutionClauses(o.resolution), rc);
    p, seconds := PutTimeout(o.timeout, rc, tpb, p);
    head := head + AllBytes(TimeoutClauses(o.timeout), rc);
    assert tpb[..p] == head;
    if o.readConsistency {
      tpb[p] := rc; p := p + 1;
      tpb[p] := 1; p := p + 1;
    }
    assert tpb[..p] == head + Flag(o, rc);
    len := PutTables(o.tables, rc, tpb, p);
  }
}
