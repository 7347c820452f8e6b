/** Order through the sharded ingress, over whole runs: any number of producers push while the
    FFI thread splices one queue after the other, each under that queue's own lock. */
module IngressOrder {
  import Ingress

  // The `n`-th submit of a producer; a producer is named by its place in the round robin.
  datatype Item = Item(producer: nat, n: nat)

  // `myQueueIndex`: the count is a power of two, so masking is the remainder.
  function QueueIndex(producer: nat): (i: nat)
    ensures i < Ingress.QueueCount
  {
    producer % Ingress.QueueCount
  }

  // Producers that come one after the other have queues of their own, as far as there are queues.
  lemma NeighboursApart(p: nat, q: nat)
    requires p < q < p + Ingress.QueueCount
    ensures QueueIndex(p) != QueueIndex(q)
  {
  }

  datatype Bank = Bank(
    queues: seq<seq<Item>>,
    depth: nat,
    turn: nat,              // the queue the splice loop takes next
    out: seq<Item>,         // what the successive merges handed over
    accepted: seq<Item>)    // every push that was not refused, in order

  datatype Action = Push(item: Item) | SpliceNext

  predicate Init(b: Bank) {
    && |b.queues| == Ingress.QueueCount && (forall q :: q in b.queues ==> q == [])
    && b.turn == 0 && b.out == [] && b.accepted == []
  }

  function Apply(b: Bank, a: Action): Bank
    requires |b.queues| == Ingress.QueueCount && b.turn < Ingress.QueueCount
  {
    match a
    case Push(item) =>
      var i := QueueIndex(item.producer);
      if |b.queues[i]| >= b.depth then b
      else b.(queues := b.queues[i := b.queues[i] + [item]], accepted := b.accepted + [item])
    case SpliceNext =>
      b.(queues := b.queues[b.turn := []], out := b.out + b.queues[b.turn], turn := (b.turn + 1) % Ingress.QueueCount)
  }

  ghost predicate IsRun(bs: seq<Bank>, acts: seq<Action>) {
    && |bs| == |acts| + 1 && Init(bs[0])
    && forall i :: 0 <= i < |acts| ==>
         |bs[i].queues| == Ingress.QueueCount && bs[i].turn < Ingress.QueueCount && bs[i + 1] == Apply(bs[i], acts[i])
  }

  // The submits of one producer.
  function Of(s: seq<Item>, producer: nat): seq<Item> {
    if s == [] then []
    else Of(s[..|s| - 1], producer) + if s[|s| - 1].producer == producer then [s[|s| - 1]] else []
  }

  lemma {:induction false} OfConcat(s: seq<Item>, t: seq<Item>, producer: nat)
    ensures Of(s + t, producer) == Of(s, producer) + Of(t, producer)
  {
    if t == [] {
      assert s + t == s;
    } else {
      var n := |t| - 1;
      OfConcat(s, t[..n], producer);
      assert (s + t)[..|s + t| - 1] == s + t[..n];
    }
  }

  lemma {:induction false} OfOthers(s: seq<Item>, producer: nat)
    requires forall x :: x in s ==> x.producer != producer
    ensures Of(s, producer) == []
  {
    if s != [] { OfOthers(s[..|s| - 1], producer); }
  }

  // Every item sits in the queue of its producer.
  ghost predicate Placed(b: Bank) {
    && |b.queues| == Ingress.QueueCount && b.turn < Ingress.QueueCount
    && (forall i :: 0 <= i < |b.queues| ==> |b.queues[i]| <= b.depth)
    && (forall i, x :: 0 <= i < |b.queues| && x in b.queues[i] ==> QueueIndex(x.producer) == i)
  }

  // What a producer pushed has come out, in order, or is still in its queue, in order.
  predicate InOrder(b: Bank, producer: nat)
    requires |b.queues| == Ingress.QueueCount
  {
    Of(b.accepted, producer) == Of(b.out, producer) + Of(b.queues[QueueIndex(producer)], producer)
  }

  ghost predicate Inv(b: Bank) {
    Placed(b) && forall p: nat :: InOrder(b, p)
  }

  lemma PushKeepsPlaces(b: Bank, item: Item)
    requires Placed(b)
    ensures Placed(Apply(b, Push(item)))
  {
    hide QueueIndex;
  }

  lemma OfOne(item: Item, p: nat)
    ensures Of([item], p) == if item.producer == p then [item] else []
  {
    assert [item][..0] == [];
  }

  lemma AcceptedGoesLast(b: Bank, item: Item)
    requires Placed(b) && |b.queues[QueueIndex(item.producer)]| < b.depth
    ensures var b', i := Apply(b, Push(item)), QueueIndex(item.producer);
            && b'.out == b.out && b'.accepted == b.accepted + [item] && |b'.queues| == |b.queues|
            && forall j :: 0 <= j < |b.queues| ==> b'.queues[j] == if j == i then b.queues[i] + [item] else b.queues[j]
  {
    hide QueueIndex;
  }

  lemma PushKeepsOrder(b: Bank, item: Item, p: nat)
    requires Placed(b) && InOrder(b, p)
    ensures InOrder(Apply(b, Push(item)), p)
  {
    var i, j := QueueIndex(item.producer), QueueIndex(p);
    if |b.queues[i]| >= b.depth {
      assert Apply(b, Push(item)) == b;
    } else {
      AcceptedGoesLast(b, item);
      OfConcat(b.accepted, [item], p);
      OfConcat(b.queues[i], [item], p);
      OfOne(item, p);
      GoesLast(Of(b.accepted, p), Of(b.out, p), Of(b.queues[j], p), Of([item], p));
      assert i != j ==> item.producer != p;
      var b' := Apply(b, Push(item));
      assert b'.queues[j] == if i == j then b.queues[i] + [item] else b.queues[j];
      hide *;
    }
  }

  lemma GoesLast(accepted: seq<Item>, out: seq<Item>, queue: seq<Item>, more: seq<Item>)
    requires accepted == out + queue
    ensures accepted + more == out + (queue + more)
  {
  }

  lemma SpliceKeepsPlaces(b: Bank)
    requires Placed(b)
    ensures Placed(Apply(b, SpliceNext))
  {
    hide QueueIndex;
  }

  lemma SpliceKeepsOrder(b: Bank, p: nat)
    requires Placed(b) && InOrder(b, p)
    ensures InOrder(Apply(b, SpliceNext), p)
  {
    OfConcat(b.out, b.queues[b.turn], p);
    if QueueIndex(p) != b.turn { OfOthers(b.queues[b.turn], p); }
    hide QueueIndex;
  }

  lemma StepKeepsInv(b: Bank, a: Action)
    requires Inv(b)
    ensures Inv(Apply(b, a))
  {
    hide InOrder, QueueIndex, Of;
    match a
    case Push(item) =>
      PushKeepsPlaces(b, item);
      forall p: nat ensures InOrder(Apply(b, a), p) { PushKeepsOrder(b, item, p); }
    case SpliceNext =>
      SpliceKeepsPlaces(b);
      forall p: nat ensures InOrder(Apply(b, a), p) { SpliceKeepsOrder(b, p); }
  }

  lemma {:induction false} RunKeepsInv(bs: seq<Bank>, acts: seq<Action>, k: nat)
    requires IsRun(bs, acts) && k < |bs|
    ensures Inv(bs[k])
  {
    if k == 0 {
      assert forall i :: 0 <= i < |bs[0].queues| ==> bs[0].queues[i] in bs[0].queues;
    } else {
      RunKeepsInv(bs, acts, k - 1);
      StepKeepsInv(bs[k - 1], acts[k - 1]);
    }
  }

  /** A push is refused exactly when the producer's queue holds its depth. */
  lemma PushAcceptedIff(bs: seq<Bank>, acts: seq<Action>, k: nat, item: Item)
    requires IsRun(bs, acts) && k < |acts| && acts[k] == Push(item)
    ensures |bs[k].queues| == |bs[k + 1].queues| == Ingress.QueueCount
    ensures var q := QueueIndex(item.producer);
            if |bs[k].queues[q]| < bs[k].depth
            then bs[k + 1].accepted == bs[k].accepted + [item] && item in bs[k + 1].queues[q]
            else bs[k + 1] == bs[k]
  {
    RunKeepsInv(bs, acts, k);
    assert bs[k + 1] == Apply(bs[k], acts[k]);
  }

  // How many queues were spliced between two states.
  ghost function Splices(acts: seq<Action>, i: nat, j: nat): nat
    requires i <= j <= |acts|
  {
    if i == j then 0 else Splices(acts, i, j - 1) + if acts[j - 1] == SpliceNext then 1 else 0
  }

  // How many splices it takes from `turn` on until queue `index` has had its turn.
  function Distance(turn: nat, index: nat): nat
    requires turn < Ingress.QueueCount && index < Ingress.QueueCount
  {
    if index >= turn then index - turn else index + Ingress.QueueCount - turn
  }

  lemma DistanceReached(turn: nat, index: nat)
    requires turn < Ingress.QueueCount && index < Ingress.QueueCount
    ensures (turn + Distance(turn, index)) % Ingress.QueueCount == index
  {
  }

  lemma SpliceTakes(b: Bank, producer: nat)
    requires Inv(b) && b.turn == QueueIndex(producer)
    ensures Of(Apply(b, SpliceNext).out, producer) == Of(b.accepted, producer)
  {
    assert InOrder(b, producer);
    OfConcat(b.out, b.queues[b.turn], producer);
    hide QueueIndex;
  }

  lemma StepGrows(b: Bank, a: Action, producer: nat)
    requires Inv(b)
    ensures Of(b.accepted, producer) <= Of(Apply(b, a).accepted, producer)
    ensures Of(b.out, producer) <= Of(Apply(b, a).out, producer)
  {
    match a
    case Push(item) => OfConcat(b.accepted, [item], producer); hide QueueIndex;
    case SpliceNext => OfConcat(b.out, b.queues[b.turn], producer); hide QueueIndex;
  }

  lemma {:induction false} TurnsGoRound(bs: seq<Bank>, acts: seq<Action>, i: nat, j: nat)
    requires IsRun(bs, acts) && i <= j < |bs|
    ensures bs[i].turn < Ingress.QueueCount && bs[j].turn == (bs[i].turn + Splices(acts, i, j)) % Ingress.QueueCount
    decreases j - i
  {
    RunKeepsInv(bs, acts, i);
    if i < j {
      TurnsGoRound(bs, acts, i, j - 1);
      RunKeepsInv(bs, acts, j - 1);
      assert bs[j] == Apply(bs[j - 1], acts[j - 1]);
      StepTurns(bs[j - 1], acts[j - 1]);
      OneMore(bs[i].turn + Splices(acts, i, j - 1));
      hide QueueIndex, Apply, IsRun, Inv;
    }
  }

  lemma StepTurns(b: Bank, a: Action)
    requires |b.queues| == Ingress.QueueCount && b.turn < Ingress.QueueCount
    ensures Apply(b, a).turn == if a == SpliceNext then (b.turn + 1) % Ingress.QueueCount else b.turn
  {
    hide QueueIndex;
  }

  lemma OneMore(n: nat)
    ensures (n % Ingress.QueueCount + 1) % Ingress.QueueCount == (n + 1) % Ingress.QueueCount
  {
  }

  // Once its queue has had its turn, whatever the producer had pushed before is out.
  lemma {:induction false} OutAfterTurn(bs: seq<Bank>, acts: seq<Action>, i: nat, j: nat, producer: nat)
    requires IsRun(bs, acts) && i <= j < |bs|
    ensures bs[i].turn < Ingress.QueueCount
    ensures Of(bs[i].accepted, producer) <= Of(bs[j].accepted, producer)
    ensures Splices(acts, i, j) > Distance(bs[i].turn, QueueIndex(producer)) ==>
              Of(bs[i].accepted, producer) <= Of(bs[j].out, producer)
    decreases j - i
  {
    RunKeepsInv(bs, acts, i);
    if i < j {
      var b, a := bs[j - 1], acts[j - 1];
      OutAfterTurn(bs, acts, i, j - 1, producer);
      RunKeepsInv(bs, acts, j - 1);
      TurnsGoRound(bs, acts, i, j - 1);
      StepGrows(b, a, producer);
      hide QueueIndex, Inv, Of, Distance;
      var n, index := Splices(acts, i, j - 1), QueueIndex(producer);
      if a == SpliceNext && n == Distance(bs[i].turn, index) {
        DistanceReached(bs[i].turn, index);
        SpliceTakes(b, producer);
      }
    }
  }

  /** Nothing is left behind: once every queue has had its turn, what any producer had pushed before
      is out. */
  lemma MergeTakesAll(bs: seq<Bank>, acts: seq<Action>, i: nat, j: nat, producer: nat)
    requires IsRun(bs, acts) && i <= j < |bs| && Splices(acts, i, j) >= Ingress.QueueCount
    ensures Of(bs[i].accepted, producer) <= Of(bs[j].out, producer)
  {
    OutAfterTurn(bs, acts, i, j, producer);
  }

  /** What one producer pushed comes out of the successive merges in push order, none of it
      lost, repeated or overtaken; what is still inside sits in the producer's own queue. */
  lemma ProducerOrder(bs: seq<Bank>, acts: seq<Action>, k: nat, producer: nat)
    requires IsRun(bs, acts) && k < |bs|
    ensures Of(bs[k].out, producer) <= Of(bs[k].accepted, producer)
    ensures |bs[k].queues| == Ingress.QueueCount
    ensures Of(bs[k].accepted, producer)[|Of(bs[k].out, producer)|..] == Of(bs[k].queues[QueueIndex(producer)], producer)
    ensures forall i :: 0 <= i < |bs[k].queues| ==> |bs[k].queues[i]| <= bs[k].depth
  {
    RunKeepsInv(bs, acts, k);
    assert InOrder(bs[k], producer);
  }
}
