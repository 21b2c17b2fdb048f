/** The linked list of waiting writes, with its separate pointer to the last node: what taking
    a write out of the middle does to that pointer, and when it goes wrong. The rest of the
    project treats the queue as a sequence. */
module WriteQueue {
  import opened Flash
  import opened Lists

  /** The writes that can be reached from the head, and the node the tail pointer names. */
  datatype List<T> = List(nodes: seq<T>, tail: Option<T>)

  /** The tail pointer names the last node. */
  predicate Sound<T(==)>(q: List<T>) {
    q.tail == if q.nodes == [] then None else Some(q.nodes[|q.nodes| - 1])
  }

  ghost predicate NoRepeats<T>(s: seq<T>) {
    forall i, j :: 0 <= i < j < |s| ==> s[i] != s[j]
  }

  /** Appending links the new node behind the tail node and makes it the head of an empty
      list; without a tail nothing is linked. */
  function Append<T(==)>(q: List<T>, x: T): List<T> {
    List(if q.nodes == [] then [x]
         else if q.tail == Some(q.nodes[|q.nodes| - 1]) then q.nodes + [x]
         else q.nodes,
         Some(x))
  }

  /** Taking out node `k` clears the tail pointer when it named that node. */
  function Take<T(==)>(q: List<T>, k: nat): List<T>
    requires k < |q.nodes|
  {
    List(Without(q.nodes, k), if q.tail == Some(q.nodes[k]) then None else q.tail)
  }

  lemma AppendSound<T>(q: List<T>, x: T)
    requires Sound(q)
    ensures Sound(Append(q, x)) && Append(q, x).nodes == q.nodes + [x]
  {
  }

  /** Taking a node out leaves the list sound exactly when the node was not the last of
      several. */
  lemma TakeSoundIff<T>(q: List<T>, k: nat)
    requires Sound(q) && NoRepeats(q.nodes) && k < |q.nodes|
    ensures Sound(Take(q, k)) <==> k < |q.nodes| - 1 || |q.nodes| == 1
    ensures Take(q, k).nodes == q.nodes[..k] + q.nodes[k + 1..]
  {
    var q' := Take(q, k);
    if k < |q.nodes| - 1 {
      assert q.nodes[k] != q.nodes[|q.nodes| - 1];
      assert q'.nodes[|q'.nodes| - 1] == q.nodes[|q.nodes| - 1];
    }
  }

  /** And when it was, the next write that is appended cannot be reached any more. */
  lemma AppendedIsLost<T>(q: List<T>, x: T)
    requires Sound(q) && |q.nodes| > 1 && x !in q.nodes
    ensures var q' := Append(Take(q, |q.nodes| - 1), x); x !in q'.nodes && !Sound(q')
  {
    var q' := Append(Take(q, |q.nodes| - 1), x);
    assert forall i :: 0 <= i < |q'.nodes| ==> q'.nodes[i] == q.nodes[i];
  }

  // ---------------------------------------------------------------- one request at a time

  /** A request's writes, appended one after the other under the list's lock. */
  function AppendAll<T(==)>(q: List<T>, xs: seq<T>): List<T>
    decreases xs
  {
    if xs == [] then q else AppendAll(Append(q, xs[0]), xs[1..])
  }

  /** Writes taken out one after the other, in any order. */
  function TakeEach<T(==)>(q: List<T>, ks: seq<nat>): List<T>
    decreases ks
  {
    if ks == [] then q
    else TakeEach(if ks[0] < |q.nodes| then Take(q, ks[0]) else q, ks[1..])
  }

  lemma {:induction false} AppendAllSound<T>(q: List<T>, xs: seq<T>)
    requires Sound(q)
    ensures Sound(AppendAll(q, xs)) && AppendAll(q, xs).nodes == q.nodes + xs
    decreases xs
  {
    if xs != [] {
      AppendSound(q, xs[0]);
      AppendAllSound(Append(q, xs[0]), xs[1..]);
      assert q.nodes + [xs[0]] + xs[1..] == q.nodes + xs;
    }
  }

  /** The tail pointer names the last node, unless the node that was appended last has been
      taken: then it names none. */
  predicate Served<T(==)>(q: List<T>, last: T) {
    q.tail == (if last in q.nodes then Some(last) else None) &&
    (last in q.nodes ==> q.nodes[|q.nodes| - 1] == last)
  }

  lemma {:induction false} TakeEachServed<T>(q: List<T>, ks: seq<nat>, last: T)
    requires NoRepeats(q.nodes) && Served(q, last)
    ensures Served(TakeEach(q, ks), last)
    decreases ks
  {
    if ks != [] {
      if ks[0] < |q.nodes| {
        var q' := Take(q, ks[0]);
        assert forall i :: 0 <= i < |q'.nodes| ==> q'.nodes[i] == q.nodes[if i < ks[0] then i else i + 1];
        assert last in q.nodes && last != q.nodes[ks[0]] ==> q'.nodes[|q'.nodes| - 1] == last;
        TakeEachServed(q', ks[1..], last);
      } else {
        TakeEachServed(q, ks[1..], last);
      }
    }
  }

  /** The writes of a request on an empty list: whatever the order in which they are taken, the
      list is sound again when the last of them is. */
  lemma DrainedIsSound<T>(xs: seq<T>, ks: seq<nat>)
    requires NoRepeats(xs)
    ensures AppendAll(List([], None), xs).nodes == xs
    ensures var q := TakeEach(AppendAll(List([], None), xs), ks); q.nodes == [] ==> Sound(q)
  {
    AppendAllSound(List([], None), xs);
    assert [] + xs == xs;
    if xs != [] {
      TakeEachServed(AppendAll(List([], None), xs), ks, xs[|xs| - 1]);
    } else {
      TakeNothing<T>(ks);
    }
  }

  lemma {:induction false} TakeNothing<T>(ks: seq<nat>)
    ensures TakeEach<T>(List([], None), ks) == List([], None)
  {
    if ks != [] { TakeNothing<T>(ks[1..]); }
  }

  /** The list over a sequence of requests, each queued when the one before has drained. */
  function Session<T(==)>(requests: seq<(seq<T>, seq<nat>)>): List<T> {
    if requests == [] then List([], None)
    else
      var n := |requests| - 1;
      TakeEach(AppendAll(Session(requests[..n]), requests[n].0), requests[n].1)
  }

  ghost predicate OneAtATime<T>(requests: seq<(seq<T>, seq<nat>)>) {
    forall n :: 0 < n <= |requests| ==> NoRepeats(requests[n - 1].0) && Session(requests[..n]).nodes == []
  }

  /** With one request outstanding at a time, as the driver's queue depth of 1 has it, the list
      is sound whenever a request is queued: no write is ever lost. */
  lemma {:induction false} OneAtATimeLosesNothing<T>(requests: seq<(seq<T>, seq<nat>)>, n: nat, xs: seq<T>)
    requires OneAtATime(requests) && n <= |requests|
    ensures Session(requests[..n]) == List([], None)
    ensures AppendAll(Session(requests[..n]), xs).nodes == xs
  {
    if n > 0 {
      OneAtATimeLosesNothing(requests, n - 1, requests[n - 1].0);
      assert requests[..n][..n - 1] == requests[..n - 1];
      DrainedIsSound(requests[n - 1].0, requests[n - 1].1);
    }
    AppendAllSound(Session(requests[..n]), xs);
    assert [] + xs == xs;
  }

  /** With two outstanding one can be: write 0 waits for its companion, write 1 is taken from
      behind it, and write 2 of the next request cannot be reached from the head. */
  lemma TwoAtATimeLoses()
    ensures var q := TakeEach(AppendAll(List([], None), [0, 1]), [1]);
            q.nodes == [0] && AppendAll(q, [2]).nodes == [0]
  {
    var q0: List<int> := List([], None);
    assert AppendAll(q0, [0, 1]) == AppendAll(Append(q0, 0), [1]);
    assert AppendAll(Append(q0, 0), [1]) == AppendAll(List([0, 1], Some(1)), []);
    var q := Take(List([0, 1], Some(1)), 1);
    assert q == List([0], None);
    assert TakeEach(List([0, 1], Some(1)), [1]) == TakeEach(q, []);
    assert AppendAll(q, [2]) == AppendAll(Append(q, 2), []);
  }
}
