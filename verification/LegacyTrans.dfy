/** The argument list of fbird_trans (fbird_transaction.c:1094-1262): numbers are modifiers that write a
    parameter block into one buffer, links take a copy of what the buffer holds by then. */
module LegacyTrans {
  import opened State
  import Tpb

  const DEFAULT: int := 0
  const WAIT: int := 128
  const NOWAIT: int := 256
  const LOCK_TIMEOUT: int := 512

  /** A link, or anything else converted to an integer (`isLong` is whether it was one already). */
  datatype Arg = LinkArg(l: Addr) | Number(n: int, isLong: bool)

  /** What the client library builds from flags and a timeout; a missing entry is a failure. */
  type Builder = map<(int, int), seq<Byte>>

  /** last_tpb; before the first modifier it holds whatever was on the stack. */
  type Buffer = s: seq<Byte> | |s| == Tpb.TPB_MAX_SIZE witness seq(Tpb.TPB_MAX_SIZE, _ => 0)

  type Size = n: int | 0 <= n <= Tpb.TPB_MAX_SIZE

  type Block = s: seq<Byte> | |s| <= Tpb.TPB_MAX_SIZE

  /** The variables of the loop over the arguments. `first` is tpb[..link0_tpb_len]. */
  datatype Scan = Scan(last: Buffer, len: Size, timeout: int, links: seq<Addr>, first: Block)

  function Start(junk: Buffer): Scan { Scan(junk, 0, 0, [], []) }

  /** A lock timeout is read from the argument after its flags, if that is an integer. */
  predicate TakesTimeout(args: seq<Arg>)
    requires args != [] && args[0].Number?
  {
    var n := args[0].n;
    && Tpb.Has(n, WAIT) && !Tpb.Has(n, NOWAIT) && Tpb.Has(n, LOCK_TIMEOUT)
    && |args| > 1 && args[1].Number? && args[1].isLong
  }

  /** The block a modifier writes, cut to the size of the buffer; none for FBIRD_DEFAULT or a failure. */
  function Made(n: int, timeout: int, build: Builder): Option<Block> {
    if n == DEFAULT || (n, timeout) !in build then None
    else
      var b := build[(n, timeout)];
      Some(if |b| > Tpb.TPB_MAX_SIZE then b[..Tpb.TPB_MAX_SIZE] else b)
  }

  /** A block copied over the front of the buffer. */
  function Overlay(last: Buffer, b: Block): Buffer { b + last[|b|..] }

  function Modify(s: Scan, n: int, timeout: int, build: Builder): Scan {
    match Made(n, timeout, build)
    case None => s.(len := 0, timeout := timeout)
    case Some(b) => s.(last := Overlay(s.last, b), len := |b|, timeout := timeout)
  }

  /** How many arguments one round of the loop takes. */
  function Width(args: seq<Arg>): (k: nat)
    requires args != []
    ensures 1 <= k <= |args|
  {
    if args[0].Number? && TakesTimeout(args) then 2 else 1
  }

  function Timeout(args: seq<Arg>, timeout: int): int
    requires args != [] && args[0].Number?
  {
    if TakesTimeout(args) then args[1].n else timeout
  }

  function TakeLink(s: Scan, l: Addr): Scan {
    s.(links := s.links + [l], first := if s.links == [] then s.last[..s.len] else s.first)
  }

  /** One round of the loop. */
  function Round(args: seq<Arg>, build: Builder, s: Scan): Scan
    requires args != []
  {
    match args[0]
    case LinkArg(l) => TakeLink(s, l)
    case Number(n, _) => Modify(s, n, Timeout(args, s.timeout), build)
  }

  function Scanned(args: seq<Arg>, build: Builder, s: Scan): Scan
    decreases |args|
  {
    if args == [] then s else Scanned(args[Width(args)..], build, Round(args, build, s))
  }

  /** The link to start on, the block handed to the server, and the block kept for restarts. */
  datatype Request = Request(l: Addr, started: seq<Byte>, stored: seq<Byte>)

  /** None stands for more than one link, which is refused. */
  function Asked(args: seq<Arg>, dflt: Addr, build: Builder, junk: Buffer): Option<Request> {
    var s := Scanned(args, build, Start(junk));
    if |s.links| > 1 then None
    else if |s.links| == 1 then Some(Request(s.links[0], s.first, s.last[..|s.first|]))
    else Some(Request(dflt, s.last[..s.len], s.last[..s.len]))
  }

  // ------------------------------------------------------------ the loop itself

  /** memcpy */
  method CopyBlock(b: seq<Byte>, last: array<Byte>)
    requires |b| <= last.Length
    modifies last
    ensures last[..] == b + old(last[..])[|b|..]
  {
    forall k | 0 <= k < |b| { last[k] := b[k]; }
    assert last[..|b|] == b && last[|b|..] == old(last[..])[|b|..];
  }

  /** _php_fbird_populate_trans */
  method Populate(n: int, timeout: int, build: Builder, last: array<Byte>) returns (len: Size)
    requires last.Length == Tpb.TPB_MAX_SIZE
    modifies last
    ensures match Made(n, timeout, build)
            case None => len == 0 && last[..] == old(last[..])
            case Some(b) => len == |b| && last[..] == b + old(last[..])[|b|..]
  {
    var made := Made(n, timeout, build);
    if made.None? { return 0; }
    CopyBlock(made.value, last);
    len := |made.value|;
  }

  /** The loop over the arguments, on the buffer. */
  method ScanArguments(args: seq<Arg>, build: Builder, last: array<Byte>) returns (links: seq<Addr>, first: Block,
      len: Size)
    requires last.Length == Tpb.TPB_MAX_SIZE
    modifies last
    ensures var s := Scanned(args, build, Start(old(last[..])));
            last[..] == s.last && links == s.links && first == s.first && len == s.len
  {
    var i, timeout := 0, 0;
    links, first, len := [], [], 0;
    ghost var end := Scanned(args, build, Start(last[..]));
    while i < |args|
      invariant 0 <= i <= |args|
      invariant Scanned(args[i..], build, Scan(last[..], len, timeout, links, first)) == end
    {
      ghost var s := Scan(last[..], len, timeout, links, first);
      ghost var rest := args[i..];
      match args[i] {
        case LinkArg(l) =>
          if links == [] { first := last[..len]; }
          links := links + [l];
          assert rest[Width(rest)..] == args[i + 1..];
          assert Round(rest, build, s) == Scan(last[..], len, timeout, links, first);
          i := i + 1;
        case Number(n, _) =>
          var width := if TakesTimeout(args[i..]) then 2 else 1;
          if width == 2 { timeout := args[i + 1].n; }
          len := Populate(n, timeout, build, last);
          assert rest[Width(rest)..] == args[i + width..];
          assert Round(rest, build, s) == Scan(last[..], len, timeout, links, first);
          i := i + width;
      }
    }
    assert args[i..] == [];
  }

  // ------------------------------------------------------------ when the stored block is the started one

  /** The position of the first link. */
  function LinkAt(args: seq<Arg>): (k: nat)
    ensures k <= |args| && (k < |args| ==> args[k].LinkArg?) && forall i :: 0 <= i < k ==> args[i].Number?
  {
    if args == [] || args[0].LinkArg? then 0
    else
      var k := LinkAt(args[1..]);
      assert forall i :: 1 <= i < k + 1 ==> args[i] == args[1..][i - 1];
      k + 1
  }

  /** The blocks that the modifiers among `args` write, in order. */
  function Written(args: seq<Arg>, build: Builder, timeout: int): seq<seq<Byte>>
    decreases |args|
  {
    if args == [] then []
    else
      var rest := args[Width(args)..];
      if args[0].LinkArg? then Written(rest, build, timeout)
      else
        var now := Timeout(args, timeout);
        match Made(args[0].n, now, build)
        case None => Written(rest, build, now)
        case Some(b) => [b] + Written(rest, build, now)
  }

  /** Block `k` is the last one to reach position `p`. */
  ghost predicate LastAt(blocks: seq<seq<Byte>>, k: nat, p: nat) {
    k < |blocks| && p < |blocks[k]| && forall j :: k < j < |blocks| ==> |blocks[j]| <= p
  }

  /** No block puts another byte than `x` at `p` for good. */
  ghost predicate Leaves(blocks: seq<seq<Byte>>, p: nat, x: Byte) {
    forall k: nat :: LastAt(blocks, k, p) ==> blocks[k][p] == x
  }

  /** The modifiers after the first link, if any, leave the block that the link has taken. */
  ghost predicate Respected(args: seq<Arg>, build: Builder, junk: Buffer) {
    var i := LinkAt(args);
    var s := Scanned(args[..i], build, Start(junk));
    i < |args| ==>
      forall p :: 0 <= p < s.len ==> Leaves(Written(args[i + 1..], build, s.timeout), p, s.last[p])
  }

  ghost predicate Covered(blocks: seq<seq<Byte>>, p: nat) { exists k: nat :: LastAt(blocks, k, p) }

  lemma LastShifts(b: seq<Byte>, rest: seq<seq<Byte>>, k: nat, p: nat)
    ensures LastAt([b] + rest, k + 1, p) <==> LastAt(rest, k, p)
  {
    var all := [b] + rest;
    if LastAt(all, k + 1, p) { forall j | k < j < |rest| ensures |rest[j]| <= p { assert all[j + 1] == rest[j]; } }
  }

  /** A position that some block reaches has a last one that does. */
  lemma {:induction false} Reached(blocks: seq<seq<Byte>>, p: nat, n: nat)
    requires n <= |blocks| && forall j :: n <= j < |blocks| ==> |blocks[j]| <= p
    ensures Covered(blocks, p) || forall j :: 0 <= j < |blocks| ==> |blocks[j]| <= p
  {
    if n > 0 {
      if p < |blocks[n - 1]| { assert LastAt(blocks, n - 1, p); } else { Reached(blocks, p, n - 1); }
    }
  }

  /** What one more block in front changes. */
  lemma BlockInFront(b: seq<Byte>, rest: seq<seq<Byte>>, p: nat, x: Byte)
    ensures Covered([b] + rest, p) <==> Covered(rest, p) || p < |b|
    ensures Leaves([b] + rest, p, x) <==> Leaves(rest, p, x) && (Covered(rest, p) || p >= |b| || b[p] == x)
  {
    var all := [b] + rest;
    Reached(rest, p, |rest|);
    forall k: nat | LastAt(rest, k, p) ensures LastAt(all, k + 1, p) { LastShifts(b, rest, k, p); }
    forall k: nat | LastAt(all, k, p) ensures k > 0 ==> LastAt(rest, k - 1, p) {
      if k > 0 { LastShifts(b, rest, k - 1, p); }
    }
    if p < |b| && !Covered(rest, p) { assert LastAt(all, 0, p); }
    if LastAt(all, 0, p) { forall k: nat ensures !LastAt(rest, k, p) { assert k < |rest| ==> all[k + 1] == rest[k]; } }
  }

  /** The byte at `p` after more arguments: that of the last block to reach it, or what was there. */
  lemma {:induction false} ByteAfter(args: seq<Arg>, build: Builder, s: Scan, p: nat, x: Byte)
    requires p < Tpb.TPB_MAX_SIZE
    ensures var blocks := Written(args, build, s.timeout);
            Scanned(args, build, s).last[p] == x <==> Leaves(blocks, p, x) && (Covered(blocks, p) || s.last[p] == x)
    decreases |args|
  {
    if args != [] {
      var (s1, rest) := (Round(args, build, s), args[Width(args)..]);
      ByteAfter(rest, build, s1, p, x);
      if args[0].Number? && Made(args[0].n, s1.timeout, build).Some? {
        BlockInFront(Made(args[0].n, s1.timeout, build).value, Written(rest, build, s1.timeout), p, x);
      }
    }
  }

  /** The scan can be cut before a link: no timeout is read across it. */
  lemma {:induction false} ScanSplits(args: seq<Arg>, build: Builder, s: Scan)
    requires LinkAt(args) < |args|
    ensures var i := LinkAt(args);
            Scanned(args, build, s) == Scanned(args[i + 1..], build, TakeLink(Scanned(args[..i], build, s), args[i].l))
    decreases |args|
  {
    var i := LinkAt(args);
    if i > 0 {
      hide Round, TakeLink, LinkAt, Width;
      RoundEnds(args);
      var k := Width(args);
      var rest := args[k..];
      LinkAfter(args, k);
      ScanSplits(rest, build, Round(args, build, s));
      assert args[i + 1..] == rest[i - k + 1..];
      assert args[..i][k..] == rest[..i - k];
      RoundBefore(args, i, build, s);
    } else {
      assert args[..0] == [];
    }
  }

  /** A round takes no link along. */
  lemma RoundEnds(args: seq<Arg>)
    requires 0 < LinkAt(args) < |args|
    ensures Width(args) <= LinkAt(args)
  {
    hide LinkAt;
  }

  /** A round before the link does not look past it. */
  lemma RoundBefore(args: seq<Arg>, i: nat, build: Builder, s: Scan)
    requires 0 < i < |args| && args[i].LinkArg? && args[0].Number?
    ensures Round(args[..i], build, s) == Round(args, build, s) && Width(args[..i]) == Width(args)
  {}

  lemma {:induction false} LinkAfter(args: seq<Arg>, k: nat)
    requires k <= LinkAt(args) < |args|
    ensures LinkAt(args[k..]) == LinkAt(args) - k
  {
    if k > 0 {
      LinkAfter(args[1..], k - 1);
      assert args[1..][k - 1..] == args[k..];
    }
  }

  /** Scanning takes the links in order, and only the first one copies the block. */
  lemma {:induction false} LaterLinks(args: seq<Arg>, build: Builder, s: Scan)
    ensures s.links <= Scanned(args, build, s).links
    ensures s.links != [] ==> Scanned(args, build, s).first == s.first
    ensures (forall i :: 0 <= i < |args| ==> args[i].Number?) ==> Scanned(args, build, s).links == s.links
    decreases |args|
  {
    if args != [] { LaterLinks(args[Width(args)..], build, Round(args, build, s)); }
  }

  /** With a link at `i`: what is started and what is stored. */
  lemma LinkBlocks(args: seq<Arg>, dflt: Addr, build: Builder, junk: Buffer)
    requires Asked(args, dflt, build, junk).Some? && LinkAt(args) < |args|
    ensures var i := LinkAt(args);
            var s := Scanned(args[..i], build, Start(junk));
            var r := Asked(args, dflt, build, junk).value;
            && r.started == s.last[..s.len]
            && r.stored == Scanned(args[i + 1..], build, TakeLink(s, args[i].l)).last[..s.len]
  {
    var i := LinkAt(args);
    ScanSplits(args, build, Start(junk));
    LaterLinks(args[..i], build, Start(junk));
    LaterLinks(args[i + 1..], build, TakeLink(Scanned(args[..i], build, Start(junk)), args[i].l));
  }

  lemma SameBytes(a: seq<Byte>, b: seq<Byte>)
    requires |a| == |b|
    ensures a == b <==> forall p :: 0 <= p < |a| ==> a[p] == b[p]
  {}

  /** fbird_trans keeps the block it started with if and only if the modifiers after the link leave it. */
  lemma StoredIsStarted(args: seq<Arg>, dflt: Addr, build: Builder, junk: Buffer)
    requires Asked(args, dflt, build, junk).Some?
    ensures var r := Asked(args, dflt, build, junk).value; r.stored == r.started <==> Respected(args, build, junk)
  {
    var i := LinkAt(args);
    if i == |args| {
      LaterLinks(args, build, Start(junk));
    } else {
      hide Asked, Scanned, Leaves, Written, LinkAt, TakeLink;
      LinkBlocks(args, dflt, build, junk);
      var (s, after) := (Scanned(args[..i], build, Start(junk)), args[i + 1..]);
      var t := TakeLink(s, args[i].l);
      TakesOnly(s, args[i].l);
      forall p: nat | p < s.len ensures Scanned(after, build, t).last[p] == s.last[p] <==>
          Leaves(Written(after, build, s.timeout), p, s.last[p]) {
        ByteAfter(after, build, t, p, s.last[p]);
      }
      SameBytes(Scanned(after, build, t).last[..s.len], s.last[..s.len]);
    }
  }

  lemma TakesOnly(s: Scan, l: Addr)
    ensures var t := TakeLink(s, l); t.last == s.last && t.timeout == s.timeout && t.len == s.len
  {}

  /** A single modifier after the link keeps the block exactly when what it writes agrees with it. */
  lemma OneModifierAfter(before: seq<Arg>, l: Addr, n: int, isLong: bool, build: Builder, junk: Buffer)
    requires forall i :: 0 <= i < |before| ==> before[i].Number?
    ensures var s := Scanned(before, build, Start(junk));
            var made := Made(n, s.timeout, build);
            Respected(before + [LinkArg(l), Number(n, isLong)], build, junk) <==>
              made.None? || forall p :: 0 <= p < Min(s.len, |made.value|) ==> made.value[p] == s.last[p]
  {
    var args := before + [LinkArg(l), Number(n, isLong)];
    var s := Scanned(before, build, Start(junk));
    LinkAtEnd(before, [LinkArg(l), Number(n, isLong)]);
    assert args[..|before|] == before && args[|before| + 1..] == [Number(n, isLong)];
    var blocks := Written([Number(n, isLong)], build, s.timeout);
    var made := Made(n, s.timeout, build);
    assert args[|before| + 1..][Width([Number(n, isLong)])..] == [];
    assert Written([], build, s.timeout) == [];
    assert blocks == if made.None? then [] else [made.value];
    forall p | 0 <= p < s.len ensures Leaves(blocks, p, s.last[p]) <==>
        made.None? || p >= |made.value| || made.value[p] == s.last[p] {
      if made.Some? { BlockInFront(made.value, [], p, s.last[p]); assert [made.value] + [] == [made.value]; }
    }
  }

  lemma {:induction false} LinkAtEnd(before: seq<Arg>, rest: seq<Arg>)
    requires (forall i :: 0 <= i < |before| ==> before[i].Number?) && rest != [] && rest[0].LinkArg?
    ensures LinkAt(before + rest) == |before|
  {
    if before != [] {
      LinkAtEnd(before[1..], rest);
      assert (before + rest)[1..] == before[1..] + rest;
    } else { assert before + rest == rest; }
  }
}
