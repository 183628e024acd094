/** The tr_list of a link as it is in memory: nodes in a singly linked list, each with a transaction or,
    after a default transaction has been dropped, with none. */
module TrList {
  import opened State
  import opened Registry

  class Node {
    var trans: Transaction?
    var next: Node?

    constructor (trans: Transaction?)
      ensures this.trans == trans && next == null
    {
      this.trans, next := trans, null;
    }
  }

  /** What the nodes hold, in order. */
  ghost function Held(nodes: seq<Node>): (r: seq<Transaction?>)
    reads nodes`trans
    ensures |r| == |nodes| && forall i :: 0 <= i < |nodes| ==> r[i] == nodes[i].trans
  {
    if nodes == [] then [] else [nodes[0].trans] + Held(nodes[1..])
  }

  ghost function NodeAt(nodes: seq<Node>, i: nat): Node? { if i < |nodes| then nodes[i] else null }

  /** The first default transaction of a list. */
  function FirstDefaultOf(s: seq<Transaction?>): Transaction? {
    if s == [] then null else if s[0] != null && s[0].isDefault then s[0] else FirstDefaultOf(s[1..])
  }

  /** The first node of `t` emptied. */
  function Emptied(s: seq<Transaction?>, t: Transaction): seq<Transaction?> {
    if s == [] then [] else if s[0] == t then [null] + s[1..] else [s[0]] + Emptied(s[1..], t)
  }

  class Link {
    var trList: Node?
    ghost var nodes: seq<Node>

    ghost predicate Valid()
      reads this`trList, this`nodes, nodes`next
    {
      NoDup(nodes) && trList == NodeAt(nodes, 0) && forall i {:trigger nodes[i].next} :: 0 <= i < |nodes| ==>
          nodes[i].next == NodeAt(nodes, i + 1)
    }

    ghost function Entries(): seq<Transaction?>
      reads this`nodes, nodes`trans
    {
      Held(nodes)
    }

    constructor ()
      ensures Valid() && Entries() == []
    {
      trList, nodes := null, [];
    }

    /** _php_fbird_find_default_trans */
    method FindDefault() returns (t: Transaction?)
      requires Valid()
      ensures t == FirstDefaultOf(Entries())
    {
      var l := trList;
      ghost var i := 0;
      assert Entries()[0..] == Entries();
      while l != null
        invariant i <= |nodes| && l == NodeAt(nodes, i)
        invariant FirstDefaultOf(Entries()) == FirstDefaultOf(Entries()[i..])
        decreases |nodes| - i
      {
        if l.trans != null && l.trans.isDefault { return l.trans; }
        assert Entries()[i..][1..] == Entries()[i + 1..];
        l := l.next;
        i := i + 1;
      }
      t := null;
    }

    /** The append loop of every call that makes a transaction. */
    method Append(t: Transaction)
      requires Valid()
      modifies this, nodes`next
      ensures Valid() && Entries() == old(Entries()) + [t] && fresh(nodes[|old(nodes)|])
    {
      hide Held;
      var node := new Node(t);
      var last := Last();
      ghost var (was, held) := (nodes, Entries());
      Hang(last, node);
      forall k | 0 <= k < |was| ensures Entries()[k] == held[k] { assert nodes[k] == was[k]; }
      assert Entries() == held + [t];
    }

    /** `*l` at the end of the list gets the new node. */
    method Hang(last: Node?, node: Node)
      requires Valid() && node !in nodes && node.next == null && last == if nodes == [] then null
               else nodes[|nodes| - 1]
      modifies this, nodes`next
      ensures Valid() && nodes == old(nodes) + [node]
    {
      ghost var was := nodes;
      if last == null { trList := node; } else { last.next := node; }
      nodes := was + [node];
      forall k | 0 <= k < |nodes| ensures nodes[k].next == NodeAt(nodes, k + 1) {
        if k < |was| {
          assert nodes[k] == was[k] && was[k] != node && NodeAt(was, k + 1) == if k + 1 < |was| then was[k + 1]
                 else null;
        }
      }
    }

    method Last() returns (l: Node?)
      requires Valid()
      ensures l == if nodes == [] then null else nodes[|nodes| - 1]
    {
      l := trList;
      ghost var i := 0;
      while l != null && l.next != null
        invariant nodes != [] ==> i < |nodes| && l == nodes[i]
        invariant nodes == [] ==> l == null
        decreases |nodes| - i
      {
        l := l.next;
        i := i + 1;
      }
    }

    /** The node in front of the first one of `t`, and its position; `i` is the length if there is none. */
    method Find(t: Transaction) returns (prev: Node?, l: Node?, ghost i: nat)
      requires Valid()
      ensures i <= |nodes| && l == NodeAt(nodes, i) && prev == (if i == 0 then null else nodes[i - 1])
      ensures (l != null ==> l.trans == t) && forall j :: 0 <= j < i ==> nodes[j].trans != t
    {
      prev, l, i := null, trList, 0;
      while l != null && l.trans != t
        invariant i <= |nodes| && l == NodeAt(nodes, i) && prev == if i == 0 then null else nodes[i - 1]
        invariant forall j :: 0 <= j < i ==> nodes[j].trans != t
        decreases |nodes| - i
      {
        prev, l, i := l, l.next, i + 1;
      }
    }

    /** The unlink loop of the transaction destructor and of drop table. */
    method Remove(t: Transaction)
      requires Valid()
      modifies this, nodes`next
      ensures Valid() && Entries() == Without(old(Entries()), t)
    {
      hide Held;
      var prev, l;
      ghost var i;
      prev, l, i := Find(t);
      ghost var (was, held) := (nodes, Entries());
      if l == null { WithoutNone(held, t); }
      else {
        WithoutFirst(held, t, i);
        hide Without;
        Unlink(prev, l, i);
        forall k | 0 <= k < |nodes| ensures Entries()[k] == held[if k < i then k else k + 1] {
          assert nodes[k] == was[if k < i then k else k + 1];
        }
        assert Entries() == held[..i] + held[i + 1..];
      }
    }

    /** `*l = p->next` */
    method Unlink(prev: Node?, l: Node, ghost i: nat)
      requires Valid() && i < |nodes| && l == nodes[i] && prev == if i == 0 then null else nodes[i - 1]
      modifies this, nodes`next
      ensures Valid() && nodes == old(nodes)[..i] + old(nodes)[i + 1..]
    {
      ghost var was := nodes;
      if prev == null { trList := l.next; } else { prev.next := l.next; }
      nodes := was[..i] + was[i + 1..];
      Spliced(was, i);
      forall k | 0 <= k < |nodes| ensures nodes[k].next == NodeAt(nodes, k + 1) {
        var at := if k < i then k else k + 1;
        assert nodes[k] == was[at] && (at + 1 != i ==> was[at].next == NodeAt(was, at + 1));
      }
    }

    /** The loop of drop table on a default transaction: its node stays, empty. */
    method Empty(t: Transaction)
      requires Valid()
      modifies nodes`trans
      ensures Valid() && Entries() == Emptied(old(Entries()), t)
    {
      var prev, l;
      ghost var i;
      prev, l, i := Find(t);
      ghost var held := Entries();
      EmptiedFirst(held, t, i);
      hide Emptied;
      if l != null {
        forall k | 0 <= k < |nodes| && k != i ensures nodes[k] != l {}
        hide NoDup;
        l.trans := null;
        assert Entries() == held[i := null];
      }
    }

    /** One round of _php_fbird_commit_link: the head node is freed. */
    method PopHead() returns (t: Transaction?)
      requires Valid() && nodes != []
      modifies this
      ensures Valid() && [t] + Entries() == old(Entries())
    {
      t := trList.trans;
      ghost var was := nodes;
      trList := trList.next;
      nodes := nodes[1..];
      forall k | 0 <= k < |nodes| ensures nodes[k].next == NodeAt(nodes, k + 1) {
        assert nodes[k] == was[k + 1] && was[k + 1].next == NodeAt(was, k + 2);
      }
      assert Entries() == Held(was)[1..];
    }
  }

  lemma {:induction false} WithoutFirst<T>(s: seq<T>, x: T, i: nat)
    requires i < |s| && s[i] == x && x !in s[..i]
    ensures Without(s, x) == s[..i] + s[i + 1..]
  {
    if i > 0 {
      var rest := s[1..];
      assert s[0] in s[..i];
      assert rest[..i - 1] == s[1..i] && forall y :: y in s[1..i] ==> y in s[..i];
      WithoutFirst(rest, x, i - 1);
      assert s[..i] == [s[0]] + rest[..i - 1] && s[i + 1..] == rest[i..];
    }
  }

  lemma {:induction false} WithoutNone<T>(s: seq<T>, x: T)
    requires x !in s
    ensures Without(s, x) == s
  {
    if s != [] {
      assert s[0] in s && s == [s[0]] + s[1..];
      WithoutNone(s[1..], x);
    }
  }

  lemma {:induction false} EmptiedFirst(s: seq<Transaction?>, t: Transaction, i: nat)
    requires i <= |s| && (i < |s| ==> s[i] == t) && forall j :: 0 <= j < i ==> s[j] != t
    ensures Emptied(s, t) == if i < |s| then s[i := null] else s
  {
    if i > 0 {
      EmptiedFirst(s[1..], t, i - 1);
      if i < |s| { assert s[i := null] == [s[0]] + s[1..][i - 1 := null]; }
    }
  }
}
