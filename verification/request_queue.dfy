/** The intrusive singly linked list a request sits in while the poller has not taken it. A
    request carries two `QueueLink`s, for the reply queue and for the stale queue. */
module RequestQueues {
  class QueueLink {
    var next: FFIThreadRequest?
    var seqNum: nat
    var queued: bool

    constructor ()
      ensures next == null && seqNum == 0 && !queued
    {
      next, seqNum, queued := null, 0, false;
    }
  }

  class FFIThreadRequest {
    const id: nat
    const reply: QueueLink
    const stale: QueueLink
    var staleElapsedMs: int

    constructor (id: nat)
      ensures this.id == id && fresh(reply) && fresh(stale) && reply != stale
      ensures !reply.queued && !stale.queued
    {
      this.id := id;
      reply := new QueueLink();
      stale := new QueueLink();
      staleElapsedMs := 0;
    }
  }

  datatype LinkKind = ReplyLink | StaleLink

  function Link(r: FFIThreadRequest, kind: LinkKind): QueueLink {
    match kind
    case ReplyLink => r.reply
    case StaleLink => r.stale
  }

  // Distinct requests are distinct nodes, in either queue.
  ghost predicate Separate(rs: set<FFIThreadRequest>) {
    && (forall r, q :: r in rs && q in rs && r != q ==> r.id != q.id && r.reply != q.reply && r.stale != q.stale)
    && (forall r, q :: r in rs && q in rs ==> r.reply != q.stale)
  }

  // `s` without its entry `x`; the queues hold a request at most once.
  function Without<T(==)>(s: seq<T>, x: T): (w: seq<T>)
    ensures x !in s ==> w == s
    ensures |w| <= |s|
  {
    if s == [] then [] else if s[0] == x then s[1..] else [s[0]] + Without(s[1..], x)
  }

  lemma {:induction false} WithoutAt<T>(s: seq<T>, i: nat)
    requires i < |s| && s[i] !in s[..i]
    ensures Without(s, s[i]) == s[..i] + s[i + 1..]
  {
    if i > 0 {
      assert s[1..][i - 1] == s[i] && s[1..][..i - 1] == s[1..i];
      assert s[0] in s[..i];
      WithoutAt(s[1..], i - 1);
    }
  }

  // Entries of a queue share no link.
  ghost predicate LinksDistinct(s: seq<FFIThreadRequest>, kind: LinkKind) {
    forall i, j :: 0 <= i < j < |s| ==> Link(s[i], kind) != Link(s[j], kind)
  }

  lemma NoneLeft(s: seq<FFIThreadRequest>, kind: LinkKind, k: nat)
    requires LinksDistinct(s, kind) && k < |s|
    ensures s[k] !in s[..k] && s[k] !in s[k + 1..]
    ensures Without(s, s[k]) == s[..k] + s[k + 1..]
  {
    WithoutAt(s, k);
  }

  lemma OneLinkEach(s: seq<FFIThreadRequest>, kind: LinkKind, k: nat)
    requires LinksDistinct(s, kind) && k < |s|
    ensures LinksDistinct(s[..k] + s[k + 1..], kind)
    ensures forall i :: 0 <= i < |s| && i != k ==> Link(s[i], kind) != Link(s[k], kind)
    ensures k > 0 ==> forall i :: 0 <= i < |s| && i != k - 1 ==> Link(s[i], kind) != Link(s[k - 1], kind)
  {
  }

  class RequestQueue {
    var head: FFIThreadRequest?
    var tail: FFIThreadRequest?
    const kind: LinkKind
    ghost var contents: seq<FFIThreadRequest>

    ghost function Links(): set<QueueLink>
      reads this
    {
      set r | r in contents :: Link(r, kind)
    }

    ghost predicate Valid()
      reads this, Links()
    {
      && (contents == [] ==> head == null && tail == null)
      && (contents != [] ==> head == contents[0] && tail == contents[|contents| - 1])
      && LinksDistinct(contents, kind)
      && (forall i :: 0 <= i < |contents| ==>
            && Link(contents[i], kind).queued
            && (i + 1 < |contents| ==> Link(contents[i], kind).next == contents[i + 1])
            && (i + 1 == |contents| ==> Link(contents[i], kind).next == null))
    }

    // The tickets stay with their requests, whatever happens to the links.
    twostate predicate TicketsKept(rs: seq<FFIThreadRequest>)
      reads set r | r in rs :: Link(r, kind)
    {
      forall r :: r in rs ==> Link(r, kind).seqNum == old(Link(r, kind).seqNum)
    }

    constructor (kind: LinkKind)
      ensures Valid() && this.kind == kind && contents == []
    {
      this.kind := kind;
      head, tail := null, null;
      contents := [];
    }

    method Push(request: FFIThreadRequest, seqNum: nat)
      requires Valid() && Link(request, kind) !in Links()
      modifies this, Link(request, kind), Links()
      ensures Valid() && contents == old(contents) + [request]
      ensures Link(request, kind).seqNum == seqNum && TicketsKept(old(contents))
    {
      var l := Link(request, kind);
      l.next := null;
      l.seqNum := seqNum;
      l.queued := true;
      if tail == null {
        head := request;
      } else {
        Link(tail, kind).next := request;
      }
      tail := request;
      contents := contents + [request];
    }

    method Pop() returns (request: FFIThreadRequest?)
      requires Valid()
      modifies this, Links()
      ensures Valid()
      ensures old(contents) == [] ==> request == null && contents == []
      ensures old(contents) != [] ==>
                && request == old(contents[0]) && contents == old(contents)[1..]
                && !Link(request, kind).queued
      ensures TicketsKept(old(contents))
    {
      request := head;
      if request == null { return; }
      var l := Link(request, kind);
      assert contents != [] && contents[0] == request;
      assert forall i :: 1 <= i < |contents| ==> Link(contents[i], kind) != Link(contents[0], kind);
      head := l.next;
      if head == null {
        tail := null;
      }
      l.next := null;
      l.queued := false;
      contents := contents[1..];
    }

    method HeadSeq() returns (seqNum: nat)
      requires Valid()
      ensures seqNum == if contents == [] then 0 else Link(contents[0], kind).seqNum
    {
      if head == null { return 0; }
      seqNum := Link(head, kind).seqNum;
    }

    // The walk of `unlink`: the entry for `request` and the one before it.
    method Find(request: FFIThreadRequest) returns (prev: FFIThreadRequest?, cur: FFIThreadRequest?, ghost k: nat)
      requires Valid()
      ensures request in contents ==> cur == request
      ensures request !in contents ==> cur == null
      ensures k <= |contents| && request !in contents[..k]
      ensures (k == 0 ==> prev == null) && (k > 0 ==> prev == contents[k - 1])
      ensures if k < |contents| then cur == request == contents[k] else cur == null && request !in contents
    {
      prev := null;
      cur := head;
      k := 0;
      while cur != null && cur != request
        invariant 0 <= k <= |contents|
        invariant k < |contents| ==> cur == contents[k]
        invariant k == |contents| ==> cur == null
        invariant (k == 0 ==> prev == null) && (k > 0 ==> prev == contents[k - 1])
        invariant request !in contents[..k]
        decreases |contents| - k
      {
        prev := cur;
        cur := Link(cur, kind).next;
        k := k + 1;
      }
    }

    // The surgery of `unlink`, at the place the walk found.
    method CutOut(prev: FFIThreadRequest?, cur: FFIThreadRequest, ghost k: nat)
      requires Valid() && k < |contents| && cur == contents[k]
      requires (k == 0 ==> prev == null) && (k > 0 ==> prev == contents[k - 1])
      modifies this, Links()
      ensures Valid() && contents == old(contents)[..k] + old(contents)[k + 1..]
      ensures !Link(cur, kind).queued
      ensures TicketsKept(old(contents))
    {
      ghost var before := contents;
      contents := before[..k] + before[k + 1..];
      OneLinkEach(before, kind, k);
      hide LinksDistinct;
      var l := Link(cur, kind);
      if prev == null {
        head := l.next;
      } else {
        Link(prev, kind).next := l.next;
      }
      if tail == cur {
        tail := prev;
      }
      l.next := null;
      l.queued := false;
      forall i | 0 <= i < |contents|
        ensures
          && Link(contents[i], kind).queued
          && (i + 1 < |contents| ==> Link(contents[i], kind).next == contents[i + 1])
          && (i + 1 == |contents| ==> Link(contents[i], kind).next == null)
      {
        if i + 1 < k {
          assert contents[i] == before[i] && contents[i + 1] == before[i + 1];
        } else if i < k {
          assert contents[i] == prev;
        } else {
          assert contents[i] == before[i + 1];
        }
      }
    }

    /** Takes `request` out wherever it sits: first, in the middle, last or alone. */
    method Unlink(request: FFIThreadRequest)
      requires Valid()
      requires request !in contents ==> Link(request, kind) !in Links()
      modifies this, Link(request, kind), Links()
      ensures Valid() && contents == Without(old(contents), request) && request !in contents
      ensures !Link(request, kind).queued
      ensures TicketsKept(old(contents))
    {
      var l := Link(request, kind);
      if !l.queued { return; }
      var prev, cur, k := Find(request);
      if cur != null {
        NoneLeft(contents, kind, k);
        hide LinksDistinct, Without;
        CutOut(prev, cur, k);
      } else {
        // Flagged but in no list: only the flag is left to reset.
        l.next := null;
        l.queued := false;
      }
    }

    // The chain keeps its links; the caller walks it from the head it is given.
    method Detach() returns (chain: FFIThreadRequest?)
      requires Valid()
      modifies this
      ensures Valid() && contents == []
      ensures old(contents) == [] ==> chain == null
      ensures old(contents) != [] ==> chain == old(contents)[0]
    {
      chain := head;
      head := null;
      tail := null;
      contents := [];
    }
  }
}
