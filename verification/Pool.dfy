/** The pool that requests, sub-requests and commands come from: two intrusive doubly linked
    lists on the heap, one of nodes in use and one of nodes given back. */
module Pool {
  import opened Lists

  class Node {
    var pre: Node?
    var next: Node?

    constructor ()
      ensures pre == null && next == null
    {
      pre, next := null, null;
    }
  }

  function At(s: seq<Node>, i: int): Node? {
    if 0 <= i < |s| then s[i] else null
  }

  /** The nodes `s`, in this order, make up the list that starts at `head`: `next` and `pre`
      are inverse to each other and end at both ends. */
  ghost predicate Linked(s: seq<Node>, head: Node?)
    reads s
  {
    && head == At(s, 0)
    && forall i :: 0 <= i < |s| ==> s[i].next == At(s, i + 1) && s[i].pre == At(s, i - 1)
  }

  ghost predicate Distinct(s: seq<Node>) {
    forall i, j :: 0 <= i < j < |s| ==> s[i] != s[j]
  }

  /** Two lists that have no node in common and none twice. */
  ghost predicate Apart(a: seq<Node>, b: seq<Node>) {
    Distinct(a) && Distinct(b) && forall i, j :: 0 <= i < |a| && 0 <= j < |b| ==> a[i] != b[j]
  }

  function NodesOf(s: seq<Node>): set<Node> { set n | n in s }

  lemma NodesWithout(s: seq<Node>, k: nat)
    requires k < |s|
    ensures NodesOf(s) == NodesOf(Without(s, k)) + {s[k]}
  {
    forall n | n in s ensures n in Without(s, k) || n == s[k] {
      var i :| 0 <= i < |s| && s[i] == n;
      if i < k { assert Without(s, k)[i] == n; }
      if i > k { assert Without(s, k)[i - 1] == n; }
    }
  }

  lemma NodesCons(n: Node, s: seq<Node>)
    ensures NodesOf([n] + s) == {n} + NodesOf(s)
  {
  }

  lemma WithoutApart(a: seq<Node>, s: seq<Node>, k: nat)
    requires Apart(a, s) && k < |s|
    ensures Apart(a, Without(s, k)) && Apart(s, a) && s[k] !in Without(s, k) && s[k] !in a
  {
  }

  lemma TailApart(s: seq<Node>, a: seq<Node>)
    requires Apart(s, a) && s != []
    ensures Apart(s[1..], a) && s[0] !in s[1..] && s[0] !in a && s == [s[0]] + s[1..]
  {
  }

  class Allocator {
    var freeHead: Node?
    var usedHead: Node?
    ghost var free: seq<Node>
    ghost var used: seq<Node>
    /** Every node there ever was. */
    ghost var created: set<Node>

    /** Both lists are proper, no node is twice in them, and no node is lost. */
    ghost predicate Valid()
      reads this, free, used
    {
      Proper() && created == NodesOf(free) + NodesOf(used)
    }

    ghost predicate Proper()
      reads this, free, used
    {
      Linked(free, freeHead) && Linked(used, usedHead) && Apart(free, used)
    }

    constructor ()
      ensures Valid() && free == [] && used == [] && created == {}
    {
      freeHead, usedHead, free, used, created := null, null, [], [], {};
    }

    /** Takes the first node off a list; `o` is the other list. */
    static method PopFront(head: Node, ghost s: seq<Node>, ghost o: seq<Node>, ghost other: Node?) returns (rest: Node?)
      requires s != [] && Linked(s, head) && Linked(o, other) && Apart(s, o)
      modifies s
      ensures Linked(s[1..], rest) && Linked(o, other)
    {
      rest := head.next;
      if rest != null {
        rest.pre := null;
      }
    }

    /** Puts a node in front of a list. */
    static method PushFront(head: Node?, n: Node, ghost s: seq<Node>, ghost o: seq<Node>, ghost other: Node?)
      requires Linked(s, head) && Linked(o, other) && Apart(s, o) && n !in s && n !in o
      modifies s, n
      ensures Linked([n] + s, n) && Linked(o, other)
    {
      n.pre := null;
      n.next := head;
      if head != null {
        head.pre := n;
      }
    }

    /** Takes a node out of a list, wherever it is. */
    static method Unlink(head: Node, n: Node, ghost s: seq<Node>, ghost k: nat, ghost o: seq<Node>, ghost other: Node?)
      returns (rest: Node?)
      requires Linked(s, head) && Linked(o, other) && Apart(s, o) && k < |s| && s[k] == n
      modifies s
      ensures Linked(Without(s, k), rest) && Linked(o, other)
    {
      rest := head;
      ghost var s' := Without(s, k);
      if n == head {
        rest := n.next;
        if rest != null {
          rest.pre := null;
        }
      } else {
        n.pre.next := n.next;
        if n.next != null {
          n.next.pre := n.pre;
        }
      }
    }

    method TakeFree() returns (n: Node)
      requires Proper() && free != []
      modifies `freeHead, `free, free
      ensures Proper() && n == old(free)[0] && free == old(free)[1..] && n !in free && n !in used
      ensures NodesOf(old(free)) == {n} + NodesOf(free)
    {
      hide Linked, Apart, NodesOf;
      NodesCons(free[0], free[1..]);
      HeadOf(free, freeHead);
      TailApart(free, used);
      n := freeHead;
      freeHead := PopFront(n, free, used, usedHead);
      free := free[1..];
    }

    method PutFree(n: Node)
      requires Proper() && n !in free && n !in used
      modifies `freeHead, `free, free, n
      ensures Proper() && free == [n] + old(free) && NodesOf(free) == {n} + NodesOf(old(free))
    {
      NodesCons(n, free);
      hide Linked;
      PushFront(freeHead, n, free, used, usedHead);
      freeHead := n;
      free := [n] + free;
    }

    method PutUsed(n: Node)
      requires Proper() && n !in free && n !in used
      modifies `usedHead, `used, used, n
      ensures Proper() && used == [n] + old(used) && NodesOf(used) == {n} + NodesOf(old(used))
    {
      NodesCons(n, used);
      hide Linked;
      PushFront(usedHead, n, used, free, freeHead);
      usedHead := n;
      used := [n] + used;
    }

    method TakeUsed(n: Node, ghost k: nat)
      requires Proper() && k < |used| && used[k] == n
      modifies `usedHead, `used, used
      ensures Proper() && used == Without(old(used), k) && n !in used && n !in free
    {
      hide Linked, Apart, Without;
      HeadOf(used, usedHead);
      WithoutApart(free, used, k);
      usedHead := Unlink(usedHead, n, used, k, free, freeHead);
      used := Without(used, k);
    }

    /** A node from the free list, or a new one. */
    method Obtain() returns (n: Node)
      requires Valid()
      modifies `freeHead, `free, `created, free
      ensures Proper() && n !in free && n !in used && created == old(created) + {n}
      ensures created == NodesOf(free) + NodesOf(used) + {n}
      ensures if old(free) == [] then fresh(n) && free == [] else n == old(free)[0] && free == old(free)[1..]
    {
      HeadOf(free, freeHead);
      if freeHead != null {
        hide Linked, Apart, NodesOf;
        n := TakeFree();
      } else {
        n := new Node();
        created := created + {n};
      }
    }

    /** Hands out a node: the one given back last, or a new one. Never one that is in use. */
    method Allocate() returns (n: Node)
      requires Valid()
      modifies this, free, used
      ensures Valid() && n !in old(used) && used == [n] + old(used) && created == old(created) + {n}
      ensures if old(free) == [] then fresh(n) && free == [] else n == old(free)[0] && free == old(free)[1..]
    {
      hide Linked, Apart, NodesOf;
      n := Obtain();
      PutUsed(n);
    }

    lemma HeadOf(s: seq<Node>, head: Node?)
      requires Linked(s, head)
      ensures head == null <==> s == []
      ensures s != [] ==> head == s[0]
    {
    }

    /** The search for a node in the list in use. It never answers null, so the caller's test
        for a node that is not there cannot succeed: for such a node it stops at the last. */
    method Find(ptr: Node) returns (iter: Node?, ghost k: nat)
      requires Linked(used, usedHead) && used != []
      ensures k < |used| && iter == used[k] && (if ptr in used then iter == ptr else k == |used| - 1)
    {
      iter := usedHead;
      k := 0;
      while iter != ptr && iter.next != null
        invariant k < |used| && iter == used[k] && ptr !in used[..k]
        decreases |used| - k
      {
        iter := iter.next;
        k := k + 1;
      }
    }

    /** Takes a node back. */
    method Free(ptr: Node)
      requires Valid() && ptr in used
      modifies this, free, used
      ensures Valid() && free == [ptr] + old(free) && created == old(created)
      ensures exists k: nat :: k < |old(used)| && old(used)[k] == ptr && used == Without(old(used), k)
    {
      hide Linked, Apart, Without;
      var iter, k := Find(ptr);
      NodesWithout(used, k);
      TakeUsed(ptr, k);
      PutFree(ptr);
    }

    /** Gives up the nodes of one list, each exactly once. */
    static method Release(head: Node?, ghost s: seq<Node>) returns (freed: seq<Node>)
      requires Linked(s, head)
      ensures freed == s
    {
      freed := [];
      var iter := head;
      ghost var k := 0;
      while iter != null
        invariant 0 <= k <= |s| && iter == At(s, k) && freed == s[..k]
        decreases |s| - k
      {
        freed := freed + [iter];
        iter := iter.next;
        k := k + 1;
      }
    }

    /** Gives up every node, each exactly once. */
    method Destroy() returns (freed: seq<Node>)
      requires Valid()
      modifies `freeHead, `usedHead
      ensures freed == free + used && Distinct(freed) && NodesOf(freed) == created
      ensures freeHead == null && usedHead == null
    {
      hide Linked;
      freed := Release(freeHead, free);
      freeHead := null;
      var more := Release(usedHead, used);
      usedHead := null;
      freed := freed + more;
    }
  }
}
