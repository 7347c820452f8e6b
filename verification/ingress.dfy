/** Sharded ingress: sixteen intrusive FIFOs that producers append to and the FFI thread splices
    into one chain through the requests themselves. */
module Ingress {
  class IngressRequest {
    const generation: nat
    var next: IngressRequest?

    constructor (generation: nat)
      ensures next == null && this.generation == generation
    {
      this.generation := generation;
      next := null;
    }
  }

  datatype PushOutcome = QueueFull | Queued | QueuedWake

  const QueueCount: nat := 16

  // ---------------------------------------------------------------------------------------
  // Chains
  // ---------------------------------------------------------------------------------------

  ghost predicate NoDup<T>(s: seq<T>) {
    forall i, j :: 0 <= i < j < |s| ==> s[i] != s[j]
  }

  // The nodes of `s`, each linked to the next and the last to nil: finite and without a cycle.
  ghost predicate Chain(s: seq<IngressRequest>)
    reads s
  {
    && NoDup(s)
    && (forall i :: 0 <= i < |s| - 1 ==> s[i].next == s[i + 1])
    && (s != [] ==> s[|s| - 1].next == null)
  }

  ghost predicate Ends(head: IngressRequest?, tail: IngressRequest?, s: seq<IngressRequest>) {
    && (s == [] ==> head == null && tail == null)
    && (s != [] ==> head == s[0] && tail == s[|s| - 1])
  }

  // The two halves of a chain joined by one link.
  lemma ChainJoins(s: seq<IngressRequest>, t: seq<IngressRequest>)
    requires s != [] && t != [] && NoDup(s) && Chain(t)
    requires forall i :: 0 <= i < |s| - 1 ==> s[i].next == s[i + 1]
    requires s[|s| - 1].next == t[0]
    requires forall x :: x in s ==> x !in t
    ensures Chain(s + t)
  {
    var u := s + t;
    forall i, j | 0 <= i < j < |u|
      ensures u[i] != u[j]
    {
      if i < |s| <= j { assert u[i] in s && u[j] in t; }
      if |s| <= i { assert u[i] == t[i - |s|] && u[j] == t[j - |s|]; }
    }
    forall i | 0 <= i < |u| - 1
      ensures u[i].next == u[i + 1]
    {
      if i >= |s| { assert u[i] == t[i - |s|]; }
    }
    assert u[|u| - 1] == t[|t| - 1];
  }

  twostate lemma ChainSame(s: seq<IngressRequest>)
    requires old(Chain(s)) && forall r :: r in s ==> r.next == old(r.next)
    ensures Chain(s)
  {
  }

  class IngressQueue {
    var head: IngressRequest?
    var tail: IngressRequest?
    var count: nat
    ghost var contents: seq<IngressRequest>

    ghost predicate Valid()
      reads this, contents
    {
      count == |contents| && Ends(head, tail, contents) && Chain(contents)
    }

    constructor ()
      ensures Valid() && contents == []
    {
      head, tail, count, contents := null, null, 0, [];
    }

    // The locked part of `pushRequest`; `depth` is what one queue holds.
    method Push(request: IngressRequest, depth: nat) returns (outcome: PushOutcome)
      requires Valid() && request !in contents
      modifies this, request`next, contents
      ensures Valid()
      ensures old(|contents|) >= depth ==> outcome == QueueFull && contents == old(contents)
      ensures old(|contents|) < depth ==>
                contents == old(contents) + [request] && outcome == if old(contents) == [] then QueuedWake else Queued
    {
      request.next := null;
      if count >= depth { return QueueFull; }
      var wasEmpty := tail == null;
      ghost var before := contents;
      if wasEmpty {
        head := request;
      } else {
        tail.next := request;
        ChainJoins(before, [request]);
      }
      tail := request;
      count := count + 1;
      contents := contents + [request];
      outcome := if wasEmpty then QueuedWake else Queued;
    }

    // Hands the whole queue over and leaves it empty.
    method Detach() returns (first: IngressRequest?, last: IngressRequest?)
      requires Valid()
      modifies this
      ensures Valid() && contents == [] && Ends(first, last, old(contents))
    {
      first, last := head, tail;
      if head != null {
        head := null;
        tail := null;
        count := 0;
        contents := [];
      }
    }
  }

  // ---------------------------------------------------------------------------------------
  // The bank
  // ---------------------------------------------------------------------------------------

  // The queues one after the other.
  ghost function Flat(qs: seq<seq<IngressRequest>>): seq<IngressRequest> {
    if qs == [] then [] else Flat(qs[..|qs| - 1]) + qs[|qs| - 1]
  }

  lemma {:induction false} FlatHas(qs: seq<seq<IngressRequest>>, x: IngressRequest)
    ensures x in Flat(qs) <==> exists i :: 0 <= i < |qs| && x in qs[i]
  {
    if qs != [] {
      var n := |qs| - 1;
      FlatHas(qs[..n], x);
      if i :| 0 <= i < |qs| && x in qs[i] {
        if i < n { assert x in qs[..n][i]; }
      }
      if x in Flat(qs[..n]) {
        var i :| 0 <= i < n && x in qs[..n][i];
        assert x in qs[i];
      }
    }
  }

  ghost predicate Apart(qs: seq<seq<IngressRequest>>) {
    forall i, j, x :: 0 <= i < j < |qs| && x in qs[i] ==> x !in qs[j]
  }

  lemma ApartPush(qs: seq<seq<IngressRequest>>, index: nat, r: IngressRequest)
    requires Apart(qs) && index < |qs| && forall i :: 0 <= i < |qs| ==> r !in qs[i]
    ensures Apart(qs[index := qs[index] + [r]])
  {
  }

  class RequestQueueBank {
    const queues: seq<IngressQueue>
    const depth: nat
    ghost var nodes: set<IngressRequest>

    constructor (depth: nat)
      ensures Valid() && this.depth == depth && nodes == {} && (forall q :: q in queues ==> fresh(q))
    {
      this.depth := depth;
      nodes := {};
      var qs: seq<IngressQueue> := [];
      while |qs| < QueueCount
        invariant |qs| <= QueueCount && NoDup(qs)
        invariant forall q :: q in qs ==> fresh(q) && q.Valid() && q.contents == []
      {
        var q := new IngressQueue();
        qs := qs + [q];
      }
      queues := qs;
    }

    ghost function Contents(): (c: seq<seq<IngressRequest>>)
      reads queues
      ensures |c| == |queues| && forall i :: 0 <= i < |queues| ==> c[i] == queues[i].contents
    {
      seq(|queues|, i requires 0 <= i < |queues| reads queues => queues[i].contents)
    }

    // Queues are distinct objects and hold distinct requests, all among `nodes`.
    ghost predicate Valid()
      reads this, queues, nodes
    {
      && |queues| == QueueCount && NoDup(queues)
      && (forall q, r :: q in queues && r in q.contents ==> r in nodes)
      && (forall q :: q in queues ==> q.Valid() && q.count <= depth)
      && Apart(Contents())
    }

    lemma OthersApart(index: nat)
      requires Valid() && index < |queues|
      ensures forall p :: p in queues && p != queues[index] ==> forall r :: r in p.contents ==>
            r !in queues[index].contents
    {
      forall p, r | p in queues && p != queues[index] && r in p.contents
        ensures r !in queues[index].contents
      {
        var j :| 0 <= j < |queues| && queues[j] == p;
        assert Contents()[j] == p.contents && Contents()[index] == queues[index].contents;
      }
    }

    /** Appends to the queue of the calling thread, or leaves the request with the caller. */
    method PushRequest(request: IngressRequest, index: nat) returns (outcome: PushOutcome)
      requires Valid() && request !in nodes && index < QueueCount
      modifies this`nodes, queues[index], request`next, queues[index].contents
      ensures Valid()
      ensures outcome == QueueFull <==> old(|queues[index].contents|) == depth
      ensures outcome == QueuedWake <==> old(queues[index].contents) == [] && depth > 0
      ensures nodes == if outcome == QueueFull then old(nodes) else old(nodes) + {request}
      ensures Contents() == if outcome == QueueFull then old(Contents())
                            else old(Contents())[index := old(queues[index].contents) + [request]]
    {
      ghost var c := Contents();
      var q := queues[index];
      OthersApart(index);
      ApartPush(c, index, request);
      assert forall j :: 0 <= j < |queues| && j != index ==> queues[j] != q;
      hide Apart;
      nodes := if q.count >= depth then nodes else nodes + {request};
      outcome := q.Push(request, depth);
      forall p | p in queues
        ensures p.Valid() && p.count <= depth && (p != q ==> p.contents == old(p.contents))
      {
        if p != q {
          assert p.contents == old(p.contents) && forall r :: r in old(p.contents) ==>
                r != request && r !in old(q.contents);
          assert forall r :: r in p.contents ==> r.next == old(r.next);
          assert old(Chain(p.contents)) && Chain(p.contents);
        }
      }
      ghost var c' := if outcome == QueueFull then c else c[index := c[index] + [request]];
      forall j | 0 <= j < |queues|
        ensures queues[j].contents == c'[j]
      {
        if j != index { assert queues[j] in queues && queues[j] != q; }
      }
      assert Contents() == c';
    }

    lemma OtherQueues(i: nat)
      requires NoDup(queues) && i < |queues|
      ensures forall j :: 0 <= j < |queues| && j != i ==> queues[j] != queues[i]
    {
    }

    lemma FlatApart(c: seq<seq<IngressRequest>>, i: nat)
      requires Apart(c) && i < |c|
      ensures forall x, j :: x in Flat(c[..i]) && i <= j < |c| ==> x !in c[j]
      ensures Flat(c[..i + 1]) == Flat(c[..i]) + c[i]
    {
      assert c[..i + 1][..i] == c[..i];
      forall x, j | x in Flat(c[..i]) && i <= j < |c|
        ensures x !in c[j]
      {
        FlatHas(c[..i], x);
        var k :| 0 <= k < i && x in c[..i][k];
        assert x in c[k];
      }
    }

    // Queues before `i` were handed over, those from `i` on still hold what they held.
    ghost predicate Spliced(c: seq<seq<IngressRequest>>, i: nat, all: set<IngressRequest>)
      reads queues, all
    {
      && |c| == |queues|
      && (forall j :: 0 <= j < i && j < |queues| ==> queues[j].contents == [] && queues[j].Valid())
      && (forall j :: i <= j < |queues| ==>
            (forall x :: x in c[j] ==> x in all) && queues[j].contents == c[j] && queues[j].Valid())
    }

    // One turn of the splice loop: queue `i` goes to the end of the chain built so far.
    method SpliceQueue(i: nat, head: IngressRequest?, tail: IngressRequest?, ghost merged: seq<IngressRequest>)
      returns (head': IngressRequest?, tail': IngressRequest?)
      requires i < |queues| && queues[i].Valid() && Chain(merged) && Ends(head, tail, merged)
      requires forall x :: x in merged ==> x !in queues[i].contents
      modifies queues[i], merged
      ensures queues[i].Valid() && queues[i].contents == []
      ensures Chain(merged + old(queues[i].contents)) && Ends(head', tail', merged + old(queues[i].contents))
    {
      ghost var c := queues[i].contents;
      var first, last := queues[i].Detach();
      if first == null {
        assert merged + c == merged;
        return head, tail;
      }
      if head == null {
        assert merged + c == c;
        return first, last;
      }
      assert tail in merged;
      tail.next := first;
      ChainSame(c);
      ChainJoins(merged, c);
      head', tail' := head, last;
    }

    method SpliceNext(ghost c: seq<seq<IngressRequest>>, i: nat, head: IngressRequest?, tail: IngressRequest?,
            ghost all: set<IngressRequest>)
      returns (head': IngressRequest?, tail': IngressRequest?)
      requires i < |queues| && NoDup(queues) && Apart(c) && Spliced(c, i, all)
      requires Chain(Flat(c[..i])) && Ends(head, tail, Flat(c[..i]))
      modifies queues[i], Flat(c[..i])
      ensures Spliced(c, i + 1, all) && Chain(Flat(c[..i + 1])) && Ends(head', tail', Flat(c[..i + 1]))
    {
      hide Flat, Apart, Ends, Chain;
      FlatApart(c, i);
      OtherQueues(i);
      ghost var merged := Flat(c[..i]);
      assert forall j :: i < j < |queues| ==> queues[j].Valid() && queues[j].contents == c[j] && Chain(c[j]);
      head', tail' := SpliceQueue(i, head, tail, merged);
      forall j | i < j < |queues|
        ensures queues[j].Valid() && queues[j].contents == c[j]
      {
        forall r | r in c[j]
          ensures r.next == old(r.next)
        {
          assert r !in merged;
        }
        ChainSame(c[j]);
      }
    }

    /** One finite nil-terminated chain: the queues one after the other, each in push order. */
    method MergeQueues() returns (head: IngressRequest?)
      requires Valid()
      modifies this`nodes, queues, nodes
      ensures Valid() && (forall q :: q in queues ==> q.contents == []) && nodes == {}
      ensures var merged := Flat(old(Contents()));
              Chain(merged) && (merged == [] ==> head == null) && (merged != [] ==> head == merged[0])
    {
      ghost var c := Contents();
      head := null;
      var tail: IngressRequest? := null;
      var i := 0;
      while i < QueueCount
        invariant 0 <= i <= QueueCount && Spliced(c, i, old(nodes))
        invariant Chain(Flat(c[..i])) && Ends(head, tail, Flat(c[..i]))
        invariant forall x :: x in Flat(c[..i]) ==> x in old(nodes)
      {
        FlatApart(c, i);
        head, tail := SpliceNext(c, i, head, tail, old(nodes));
        i := i + 1;
      }
      assert c[..i] == c;
      nodes := {};
    }
  }
}
