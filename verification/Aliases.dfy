/** The table of column names of fbird_metadata.c: every column gets a key of its own, in column order. */
module Aliases {
  import opened Decimal
  import opened State

  const METADATALENGTH: nat := 252

  /** What snprintf leaves in a buffer of `size` characters, the last of which is the terminator. */
  function Snprintf(s: string, size: nat): string
    requires size > 0
  {
    if |s| < size then s else s[..size - 1]
  }

  /** The j-th name tried for a column: its own name, then numbered ones; a column without a name starts
      with FIELD_00. */
  function Candidate(alias: string, j: nat): string {
    if alias == "" then "FIELD_" + Pad(j, 2) else if j == 0 then alias else alias + "_" + Pad(j, 2)
  }

  /** `key` is the first candidate that is not taken. */
  ghost predicate FirstFree(keys: seq<string>, alias: string, key: string) {
    exists j: nat :: key == Candidate(alias, j) && key !in keys && forall i: nat :: i < j ==>
        Candidate(alias, i) in keys
  }

  lemma CandidatesDiffer(alias: string, i: nat, j: nat)
    requires i < j
    ensures Candidate(alias, i) != Candidate(alias, j)
  {
    if Candidate(alias, i) == Candidate(alias, j) {
      var (a, b) := (Candidate(alias, i), Candidate(alias, j));
      if alias == "" {
        assert Pad(i, 2) == a[6..] == b[6..] == Pad(j, 2);
        PadInjective(i, j, 2);
      } else if i > 0 {
        assert Pad(i, 2) == a[|alias| + 1..] == b[|alias| + 1..] == Pad(j, 2);
        PadInjective(i, j, 2);
      }
    }
  }

  /** The first j names tried. */
  ghost function Tried(alias: string, j: nat): set<string> {
    if j == 0 then {} else Tried(alias, j - 1) + {Candidate(alias, j - 1)}
  }

  lemma {:induction false} TriedIs(alias: string, j: nat, k: string)
    requires k in Tried(alias, j)
    ensures exists i: nat :: i < j && k == Candidate(alias, i)
  {
    if k in Tried(alias, j - 1) { TriedIs(alias, j - 1, k); }
  }

  lemma {:induction false} TriedCounts(alias: string, j: nat)
    ensures |Tried(alias, j)| == j
  {
    hide Candidate;
    if j > 0 {
      TriedCounts(alias, j - 1);
      NotTried(alias, j - 1);
    }
  }

  lemma NotTried(alias: string, j: nat)
    ensures Candidate(alias, j) !in Tried(alias, j)
  {
    hide Candidate, Tried;
    if Candidate(alias, j) in Tried(alias, j) {
      TriedIs(alias, j, Candidate(alias, j));
      var i: nat :| i < j && Candidate(alias, j) == Candidate(alias, i);
      CandidatesDiffer(alias, i, j);
    }
  }

  lemma {:induction false} SetOfSeq<T>(s: seq<T>)
    ensures |set x | x in s| <= |s|
  {
    if s != [] {
      SetOfSeq(s[1..]);
      assert s == [s[0]] + s[1..];
      assert (set x | x in s) == {s[0]} + set x | x in s[1..];
    }
  }

  lemma SubsetCounts<T>(a: set<T>, b: set<T>)
    requires a <= b
    ensures |a| <= |b|
  {
    assert b == a + (b - a);
  }

  /** Pigeonhole: with n keys taken, one of the first n + 1 candidates is free. */
  lemma NotAllTaken(keys: seq<string>, alias: string, j: nat)
    requires forall i: nat :: i < j ==> Candidate(alias, i) in keys
    ensures j <= |keys|
  {
    TriedCounts(alias, j);
    SetOfSeq(keys);
    forall k | k in Tried(alias, j) ensures k in keys { TriedIs(alias, j, k); }
    SubsetCounts(Tried(alias, j), set k | k in keys);
  }

  /** The buffer is large enough for every candidate. */
  lemma NeverCut(alias: string, j: nat)
    requires |alias| <= METADATALENGTH + 6 && j < 0x1_0000
    ensures |Candidate(alias, j)| < METADATALENGTH + 32
  {
    assert Pow10(5) == 100_000 by { assert Pow10(2) == 100 && Pow10(4) == 100 * Pow10(2); }
    DecShort(j, 5);
  }

  /** What the loop writes into the buffer is the next candidate. */
  lemma NumberedName(alias: string, j: nat)
    requires |alias| <= METADATALENGTH + 6 && j < 0x1_0000 && (alias == "" || j > 0)
    ensures Snprintf((if alias == "" then "FIELD" else alias) + "_" + Pad(j, 2), METADATALENGTH + 32) ==
              Candidate(alias, j)
  {
    NeverCut(alias, j);
    hide Pad;
    assert "FIELD" + "_" == "FIELD_";
  }

  lemma PlainFirst(alias: string)
    ensures alias != "" ==> Candidate(alias, 0) == alias
  {}

  /** The keys of fb_query->ht_aliases in insertion order. */
  class Table {
    var keys: seq<string>

    constructor ()
      ensures keys == []
    {
      keys := [];
    }

    /** _php_fbird_insert_alias */
    method Insert(alias: string)
      requires NoDup(keys) && |keys| < 0xFFFF && |alias| <= METADATALENGTH + 6
      modifies this
      ensures NoDup(keys) && |keys| == |old(keys)| + 1 && keys[..|old(keys)|] == old(keys)
      ensures FirstFree(old(keys), alias, keys[|old(keys)|])
    {
      hide Candidate, Snprintf, Pad;
      PlainFirst(alias);
      var name := alias;
      var base := alias;
      var i := 1;
      ghost var j := 0;
      if alias == "" {
        base, i := "FIELD", 0;
        NumberedName(alias, 0);
        name := Snprintf(base + "_" + Pad(i, 2), METADATALENGTH + 32);
        i := i + 1;
      }
      while name in keys
        invariant name == Candidate(alias, j) && i == j + 1 && j <= |keys| && keys == old(keys)
        invariant base == if alias == "" then "FIELD" else alias
        invariant forall k: nat :: k < j ==> Candidate(alias, k) in keys
        decreases |keys| - j
      {
        NotAllTaken(keys, alias, j + 1);
        NumberedName(alias, j + 1);
        name := Snprintf(base + "_" + Pad(i, 2), METADATALENGTH + 32);
        i := i + 1;
        j := j + 1;
      }
      keys := keys + [name];
    }

    /** The loop of _php_fbird_alloc_ht_aliases over the effective column names. */
    method Fill(names: seq<string>)
      requires keys == [] && |names| <= 0xFFFF && forall a :: a in names ==> |a| <= METADATALENGTH + 6
      modifies this
      ensures |keys| == |names| && NoDup(keys)
      ensures forall i :: 0 <= i < |names| ==> FirstFree(keys[..i], names[i], keys[i])
    {
      hide FirstFree, Candidate;
      var i := 0;
      while i < |names|
        invariant i <= |names| && |keys| == i && NoDup(keys)
        invariant forall k :: 0 <= k < i ==> FirstFree(keys[..k], names[k], keys[k])
      {
        ghost var was := keys;
        Insert(names[i]);
        forall k | 0 <= k < i ensures keys[..k] == was[..k] && keys[k] == was[k] {
          assert keys[..|was|][..k] == keys[..k];
        }
        i := i + 1;
      }
    }
  }

  /** A numbered name is the base, an underscore and the number: two digits below 100, and above that all it takes,
      without leading zeros. */
  lemma NumberReads(alias: string, j: nat)
    requires alias == "" || j > 0
    ensures var (base, name) := (if alias == "" then "FIELD" else alias, Candidate(alias, j));
            && |name| >= |base| + 3 && name[..|base| + 1] == base + "_"
            && var digits := name[|base| + 1..];
               && AllDigits(digits) && Val(digits) == j
               && (|digits| > 2 ==> j >= 100 && digits[0] != '0')
  {
    var base := if alias == "" then "FIELD" else alias;
    DecVal(j);
    PadVal(j, 2);
    PadLong(j);
    assert Candidate(alias, j) == base + "_" + Pad(j, 2);
    assert (base + "_" + Pad(j, 2))[|base| + 1..] == Pad(j, 2);
  }

  lemma PadLong(j: nat)
    ensures |Pad(j, 2)| >= 2 && (|Pad(j, 2)| > 2 ==> j >= 100 && Pad(j, 2)[0] != '0')
  {
    LeadingDigit(j);
    if j < 100 { assert |Dec(j / 10)| == 1; }
  }

  lemma {:induction false} LeadingDigit(n: nat)
    ensures n > 0 ==> Dec(n)[0] != '0'
  {
    if n >= 10 {
      LeadingDigit(n / 10);
      assert Dec(n)[0] == Dec(n / 10)[0];
    }
  }

  lemma FirstIs(keys: seq<string>, alias: string, j: nat, key: string)
    requires FirstFree(keys, alias, key) && Candidate(alias, j) !in keys
    requires forall i: nat :: i < j ==> Candidate(alias, i) in keys
    ensures key == Candidate(alias, j)
  {}

  /** The keys of four columns X, X, no name, X. */
  lemma FourColumns(keys: seq<string>)
    requires |keys| == 4
    requires forall i :: 0 <= i < 4 ==> FirstFree(keys[..i], ["X", "X", "", "X"][i], keys[i])
    ensures keys == ["X", "X_01", "FIELD_00", "X_02"]
  {
    hide Candidate, FirstFree;
    FourCandidates();
    var names := ["X", "X", "", "X"];
    assert FirstFree(keys[..0], names[0], keys[0]) && FirstFree(keys[..1], names[1], keys[1]);
    assert FirstFree(keys[..2], names[2], keys[2]) && FirstFree(keys[..3], names[3], keys[3]);
    FirstIs(keys[..0], "X", 0, keys[0]);
    assert keys[..1] == ["X"];
    assert "X_01" != "X" by { assert |"X_01"| != |"X"|; }
    FirstIs(keys[..1], "X", 1, keys[1]);
    assert keys[..2] == ["X", "X_01"];
    assert "FIELD_00" !in keys[..2] by { assert |"FIELD_00"| == 8 && |"X_01"| == 4; }
    FirstIs(keys[..2], "", 0, keys[2]);
    assert keys[..3] == ["X", "X_01", "FIELD_00"];
    assert "X_02" !in keys[..3] by { assert "X_02"[3] != "X_01"[3] && |"X"| == 1 && |"FIELD_00"| == 8; }
    FirstIs(keys[..3], "X", 2, keys[3]);
    assert keys == keys[..3] + [keys[3]];
  }

  lemma FourCandidates()
    ensures Candidate("X", 0) == "X" && Candidate("X", 1) == "X_01" && Candidate("X", 2) == "X_02"
    ensures Candidate("", 0) == "FIELD_00"
  {}

  /** Names that are already distinct and not empty are kept. */
  lemma {:induction false} DistinctNamesStay(names: seq<string>, keys: seq<string>)
    requires |keys| == |names| && NoDup(names) && "" !in names
    requires forall i :: 0 <= i < |names| ==> FirstFree(keys[..i], names[i], keys[i])
    ensures keys == names
  {
    var n := |names|;
    if n > 0 {
      var (a, k) := (names[..n - 1], keys[..n - 1]);
      forall i | 0 <= i < n - 1 ensures FirstFree(k[..i], a[i], k[i]) { assert k[..i] == keys[..i]; }
      DistinctNamesStay(a, k);
      assert names[n - 1] !in k;
      assert Candidate(names[n - 1], 0) == names[n - 1];
      assert keys == k + [keys[n - 1]] && names == a + [names[n - 1]];
    }
  }
}
