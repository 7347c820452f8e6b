/** The listener registry: deliveries work off a snapshot with the lock released, and a removal
    waits the deliveries out unless it comes from inside one. One step per locked section or
    callback; any number of dispatching and removing threads. */
module ListenerRegistry {
  import opened Wrappers

  // One registration. `id` is what the host holds; `reg` names the registration itself, since
  // ids start over at each clear, which `era` counts.
  datatype Listener = Listener(event: nat, id: nat, reg: nat, era: nat)

  // A delivery in flight: what it has still to visit, the callback it is in or about to enter, and
  // the callbacks that started since it last began at the head of its snapshot.
  datatype Delivery = Delivery(
    thread: nat,
    snapshot: seq<Listener>,
    todo: seq<Listener>,
    calling: Option<Listener>,
    started: seq<Listener>)

  datatype Registry = Registry(
    table: seq<Listener>,
    nextId: nat,
    nextReg: nat,
    era: nat,
    deliveries: map<nat, Delivery>,
    nextDelivery: nat,
    dispatching: int,
    elsewhere: map<nat, nat>,       // dispatch depth of a thread in other registries
    waiting: map<nat, set<nat>>,    // threads in `awaitDispatch`, and what they removed
    gone: set<nat>)                 // registrations whose removal returned on a thread outside any dispatch

  const START := Registry([], 0, 0, 0, map[], 0, 0, map[], map[], {})

  datatype Action =
    | Add(thread: nat, event: nat)
    | Remove(thread: nat, id: nat)
    | RemoveAll(thread: nat, restart: bool)
    | Wake(thread: nat)
    | Begin(thread: nat, event: nat)
    | Visit(d: nat)
    | Return(d: nat)
    | Again(d: nat)
    | End(d: nat)
    | EnterElsewhere(thread: nat)
    | LeaveElsewhere(thread: nat)

  // ---------------------------------------------------------------------------------------
  // Steps
  // ---------------------------------------------------------------------------------------

  function ElsewhereDepth(r: Registry, thread: nat): nat {
    if thread in r.elsewhere then r.elsewhere[thread] else 0
  }

  // `ffiInDispatch != 0` on this thread.
  ghost predicate InDispatch(r: Registry, thread: nat) {
    ElsewhereDepth(r, thread) > 0 || exists d :: d in r.deliveries && r.deliveries[d].thread == thread
  }

  predicate Registered(table: seq<Listener>, event: nat, id: nat) {
    exists i :: 0 <= i < |table| && table[i].event == event && table[i].id == id
  }

  // In registration order, each once.
  predicate InOrder(s: seq<Listener>) {
    forall i, j :: 0 <= i < j < |s| ==> s[i].reg < s[j].reg
  }

  /** The listeners of an event: each registration once, in registration order. */
  function Listeners(table: seq<Listener>, event: nat): (s: seq<Listener>)
    ensures forall l :: l in s <==> l in table && l.event == event
    ensures InOrder(table) ==> InOrder(s)
  {
    if table == [] then []
    else
      var rest := Listeners(table[1..], event);
      if table[0].event == event then [table[0]] + rest else rest
  }

  // A removal keeps the order of the others.
  function Without(table: seq<Listener>, id: nat): (s: seq<Listener>)
    ensures forall l :: l in s <==> l in table && l.id != id
    ensures InOrder(table) ==> InOrder(s)
  {
    if table == [] then []
    else
      var rest := Without(table[1..], id);
      if table[0].id != id then [table[0]] + rest else rest
  }

  function Regs(table: seq<Listener>): set<nat> {
    set l | l in table :: l.reg
  }

  function RegsOf(table: seq<Listener>, id: nat): set<nat> {
    set l | l in table && l.id == id :: l.reg
  }

  ghost predicate Enabled(r: Registry, a: Action) {
    match a
    case Wake(t) => t in r.waiting && r.dispatching == 0
    case Visit(d) => d in r.deliveries && r.deliveries[d].thread !in r.waiting && r.deliveries[d].calling.None?
          && r.deliveries[d].todo != []
    case Return(d) => d in r.deliveries && r.deliveries[d].thread !in r.waiting && r.deliveries[d].calling.Some?
    case Again(d) => d in r.deliveries && r.deliveries[d].thread !in r.waiting && r.deliveries[d].calling.None?
    case End(d) => d in r.deliveries && r.deliveries[d].thread !in r.waiting && r.deliveries[d].calling.None?
    case Add(t, _) => t !in r.waiting
    case Remove(t, _) => t !in r.waiting
    case RemoveAll(t, _) => t !in r.waiting
    case Begin(t, _) => t !in r.waiting
    case EnterElsewhere(t) => t !in r.waiting
    case LeaveElsewhere(t) => t !in r.waiting && ElsewhereDepth(r, t) > 0
  }

  // `awaitDispatch` and the return after it: the thread waits while something is delivered,
  // unless it is inside a dispatch itself.
  ghost function AwaitDispatch(r: Registry, thread: nat, removed: set<nat>): Registry {
    if InDispatch(r, thread) then r
    else if r.dispatching > 0 then r.(waiting := r.waiting[thread := removed])
    else r.(gone := r.gone + removed)
  }

  // Every listener goes; a clear also starts the ids over.
  function Emptied(r: Registry, restart: bool): Registry {
    if restart then r.(table := [], nextId := 0, era := r.era + 1) else r.(table := [])
  }

  // The next listener of the snapshot: called if its id is still registered.
  function Visited(r: Registry, x: Delivery): Delivery
    requires x.todo != []
  {
    var l := x.todo[0];
    if Registered(r.table, l.event, l.id)
    then x.(todo := x.todo[1..], calling := Some(l), started := x.started + [l])
    else x.(todo := x.todo[1..], calling := None)
  }

  ghost function Apply(r: Registry, a: Action): Registry
    requires Enabled(r, a)
  {
    match a
    case Add(_, event) =>
      r.(table := r.table + [Listener(event, r.nextId + 1, r.nextReg, r.era)], nextId := r.nextId + 1,
            nextReg := r.nextReg + 1)
    case Remove(t, id) =>
      if RegsOf(r.table, id) == {} then r
      else AwaitDispatch(r.(table := Without(r.table, id)), t, RegsOf(r.table, id))
    case RemoveAll(t, restart) =>
      AwaitDispatch(Emptied(r, restart), t, Regs(r.table))
    case Wake(t) => r.(gone := r.gone + r.waiting[t], waiting := r.waiting - {t})
    case Begin(t, event) =>
      var snapshot := Listeners(r.table, event);
      r.(deliveries := r.deliveries[r.nextDelivery := Delivery(t, snapshot, snapshot, None, [])],
         nextDelivery := r.nextDelivery + 1, dispatching := r.dispatching + 1)
    case Visit(d) => r.(deliveries := r.deliveries[d := Visited(r, r.deliveries[d])])
    case Return(d) => r.(deliveries := r.deliveries[d := r.deliveries[d].(calling := None)])
    case Again(d) =>
      var x := r.deliveries[d];
      r.(deliveries := r.deliveries[d := x.(todo := x.snapshot, started := [])])
    case End(d) => r.(deliveries := r.deliveries - {d}, dispatching := r.dispatching - 1)
    case EnterElsewhere(t) => r.(elsewhere := r.elsewhere[t := ElsewhereDepth(r, t) + 1])
    case LeaveElsewhere(t) => r.(elsewhere := r.elsewhere[t := ElsewhereDepth(r, t) - 1])
  }

  ghost predicate IsRun(rs: seq<Registry>, acts: seq<Action>) {
    && |rs| == |acts| + 1
    && rs[0] == START
    && forall i :: 0 <= i < |acts| ==> Enabled(rs[i], acts[i]) && rs[i + 1] == Apply(rs[i], acts[i])
  }

  // ---------------------------------------------------------------------------------------
  // Invariant
  // ---------------------------------------------------------------------------------------

  ghost predicate CountInv(r: Registry) {
    && r.dispatching == |r.deliveries|
    && (forall d :: d in r.deliveries ==> d < r.nextDelivery)
    && (forall d :: d in r.deliveries ==> r.deliveries[d].thread !in r.waiting)
    && (forall t :: t in r.waiting ==> ElsewhereDepth(r, t) == 0)
  }

  predicate Known(r: Registry, l: Listener) {
    l.reg < r.nextReg && l.era <= r.era && (l.era == r.era ==> l.id <= r.nextId)
  }

  // Ids name one registration per era.
  ghost predicate NamesInv(r: Registry) {
    && (forall l :: l in r.table ==> Known(r, l) && l.era == r.era)
    && (forall l, m :: l in r.table && m in r.table && (l.id == m.id || l.reg == m.reg) ==> l == m)
  }

  ghost predicate SnapshotInv(r: Registry) {
    && (forall d :: d in r.deliveries ==>
          && (forall l :: l in r.deliveries[d].todo ==> l in r.deliveries[d].snapshot)
          && (r.deliveries[d].calling.Some? ==> r.deliveries[d].calling.value in r.deliveries[d].snapshot)
          && (forall l :: l in r.deliveries[d].snapshot ==> Known(r, l))
          && (forall l, m :: l in r.deliveries[d].snapshot && m in r.table && l.era == m.era && l.id == m.id ==> l == m))
  }

  ghost predicate GoneInv(r: Registry) {
    && (forall reg :: reg in r.gone ==> reg < r.nextReg)
    && (forall l :: l in r.table ==> l.reg !in r.gone)
    && (forall d, l :: d in r.deliveries && l in r.deliveries[d].snapshot ==> l.reg !in r.gone)
    && (forall t, reg :: t in r.waiting && reg in r.waiting[t] ==> reg < r.nextReg)
    && (forall t, l :: t in r.waiting && l in r.table ==> l.reg !in r.waiting[t])
  }

  // How far a pass over the snapshot has come: behind it every registration that is still in the
  // table has been called, once and in order.
  ghost predicate PassOk(r: Registry, x: Delivery) {
    var n := |x.snapshot| - |x.todo|;
    && InOrder(x.snapshot) && 0 <= n && x.todo == x.snapshot[n..]
    && InOrder(x.started) && (forall l :: l in x.started ==> l in x.snapshot[..n])
    && (forall l :: l in x.snapshot[..n] && l in r.table ==> l in x.started)
    && (x.calling.Some? ==> x.started != [] && x.started[|x.started| - 1] == x.calling.value)
  }

  ghost predicate PassInv(r: Registry) {
    InOrder(r.table) && forall d :: d in r.deliveries ==> PassOk(r, r.deliveries[d])
  }

  ghost predicate Inv(r: Registry) {
    CountInv(r) && NamesInv(r) && SnapshotInv(r) && GoneInv(r) && PassInv(r)
  }

  predicate DeliveryStep(a: Action) {
    a.Begin? || a.Visit? || a.Return? || a.Again? || a.End?
  }

  lemma DeliveryKeepsCount(r: Registry, a: Action)
    requires CountInv(r) && Enabled(r, a) && DeliveryStep(a)
    ensures CountInv(Apply(r, a))
  {
  }

  lemma WaitKeepsCount(r: Registry, a: Action)
    requires CountInv(r) && Enabled(r, a) && !DeliveryStep(a)
    ensures CountInv(Apply(r, a))
  {
  }

  lemma StepKeepsCount(r: Registry, a: Action)
    requires CountInv(r) && Enabled(r, a)
    ensures CountInv(Apply(r, a))
  {
    hide CountInv, Apply, Enabled;
    if DeliveryStep(a) { DeliveryKeepsCount(r, a); } else { WaitKeepsCount(r, a); }
  }

  lemma StepKeepsOrder(r: Registry, a: Action)
    requires NamesInv(r) && InOrder(r.table) && Enabled(r, a)
    ensures InOrder(Apply(r, a).table)
  {
  }

  lemma StepKeepsNames(r: Registry, a: Action)
    requires NamesInv(r) && Enabled(r, a)
    ensures NamesInv(Apply(r, a))
  {
    hide InOrder;
  }

  lemma DeliveryKeepsSnapshots(r: Registry, a: Action)
    requires NamesInv(r) && SnapshotInv(r) && Enabled(r, a) && DeliveryStep(a)
    ensures SnapshotInv(Apply(r, a))
  {
  }

  lemma TableKeepsSnapshots(r: Registry, a: Action)
    requires NamesInv(r) && SnapshotInv(r) && Enabled(r, a) && !DeliveryStep(a)
    ensures SnapshotInv(Apply(r, a))
  {
    assert Apply(r, a).deliveries == r.deliveries;
  }

  lemma StepKeepsSnapshots(r: Registry, a: Action)
    requires NamesInv(r) && SnapshotInv(r) && Enabled(r, a)
    ensures SnapshotInv(Apply(r, a))
  {
    hide NamesInv, SnapshotInv, Apply, Enabled;
    if DeliveryStep(a) { DeliveryKeepsSnapshots(r, a); } else { TableKeepsSnapshots(r, a); }
  }

  lemma NothingDelivered(r: Registry)
    requires CountInv(r)
    ensures r.dispatching == 0 ==> r.deliveries == map[]
  {
  }

  lemma AwaitKeepsGone(r: Registry, thread: nat, removed: set<nat>)
    requires CountInv(r) && GoneInv(r)
    requires forall reg :: reg in removed ==> reg < r.nextReg
    requires forall l :: l in r.table ==> l.reg !in removed
    ensures GoneInv(AwaitDispatch(r, thread, removed))
  {
    NothingDelivered(r);
  }

  lemma RemovalKeepsGone(r: Registry, a: Action)
    requires CountInv(r) && NamesInv(r) && GoneInv(r) && Enabled(r, a) && (a.Remove? || a.RemoveAll?)
    ensures GoneInv(Apply(r, a))
  {
    match a
    case Remove(t, id) =>
      AwaitKeepsGone(r.(table := Without(r.table, id)), t, RegsOf(r.table, id));
    case RemoveAll(t, restart) =>
      AwaitKeepsGone(Emptied(r, restart), t, Regs(r.table));
  }

  lemma OthersKeepGone(r: Registry, a: Action)
    requires CountInv(r) && NamesInv(r) && GoneInv(r) && Enabled(r, a) && !a.Remove? && !a.RemoveAll?
    ensures GoneInv(Apply(r, a))
  {
    NothingDelivered(r);
  }

  lemma VisitKeepsPass(r: Registry, x: Delivery)
    requires PassOk(r, x) && x.todo != []
    ensures PassOk(r, Visited(r, x))
  {
    var n, l := |x.snapshot| - |x.todo|, x.todo[0];
    assert l == x.snapshot[n] && x.snapshot[..n + 1] == x.snapshot[..n] + [l];
    if l in r.table {
      var i :| 0 <= i < |r.table| && r.table[i] == l;
      assert Registered(r.table, l.event, l.id);
    }
    forall m | m in x.started ensures m.reg < l.reg {
      var i :| 0 <= i < n && x.snapshot[i] == m;
    }
  }

  lemma PassBegins(r: Registry, thread: nat, snapshot: seq<Listener>)
    requires InOrder(snapshot)
    ensures PassOk(r, Delivery(thread, snapshot, snapshot, None, []))
  {
  }

  // A registration that left the table does not come back to it.
  lemma TableKeepsPass(r: Registry, r': Registry, x: Delivery)
    requires PassOk(r, x) && forall l :: l in x.snapshot && l in r'.table ==> l in r.table
    ensures PassOk(r', x)
  {
  }

  lemma NothingComesBack(r: Registry, a: Action, d: nat)
    requires NamesInv(r) && SnapshotInv(r) && Enabled(r, a) && d in r.deliveries && !DeliveryStep(a)
    ensures Apply(r, a).deliveries == r.deliveries
    ensures forall l :: l in r.deliveries[d].snapshot && l in Apply(r, a).table ==> l in r.table
  {
  }

  lemma DeliveryKeepsPass(r: Registry, a: Action)
    requires NamesInv(r) && PassInv(r) && Enabled(r, a) && DeliveryStep(a)
    ensures PassInv(Apply(r, a))
  {
    hide PassOk, Visited;
    var r' := Apply(r, a);
    forall d | d in r'.deliveries ensures PassOk(r', r'.deliveries[d]) {
      if d in r.deliveries && r'.deliveries[d] == r.deliveries[d] {
        TableKeepsPass(r, r', r.deliveries[d]);
      } else if a.Begin? {
        PassBegins(r', a.thread, Listeners(r.table, a.event));
      } else if a.Visit? {
        VisitKeepsPass(r, r.deliveries[d]);
        TableKeepsPass(r, r', r'.deliveries[d]);
      } else if a.Return? || a.Again? {
        PassGoesOn(r, r', r.deliveries[d], r'.deliveries[d]);
      }
    }
  }

  // A callback returns, or the pass starts over.
  lemma PassGoesOn(r: Registry, r': Registry, x: Delivery, x': Delivery)
    requires PassOk(r, x) && r'.table == r.table
    requires x' == x.(calling := None) || (x.calling.None? && x' == x.(todo := x.snapshot, started := []))
    ensures PassOk(r', x')
  {
  }

  lemma StepKeepsPass(r: Registry, a: Action)
    requires NamesInv(r) && SnapshotInv(r) && PassInv(r) && Enabled(r, a)
    ensures PassInv(Apply(r, a))
  {
    hide NamesInv, SnapshotInv, PassOk, Apply, Enabled;
    StepKeepsOrder(r, a);
    if DeliveryStep(a) {
      DeliveryKeepsPass(r, a);
    } else {
      var r' := Apply(r, a);
      forall d | d in r'.deliveries && (d in r.deliveries || r'.deliveries == r.deliveries)
        ensures d in r.deliveries && r'.deliveries[d] == r.deliveries[d] && PassOk(r', r'.deliveries[d])
      {
        NothingComesBack(r, a, d);
        TableKeepsPass(r, r', r.deliveries[d]);
      }
      SameDeliveries(r, a);
    }
  }

  lemma SameDeliveries(r: Registry, a: Action)
    requires Enabled(r, a) && !DeliveryStep(a)
    ensures Apply(r, a).deliveries == r.deliveries
  {
  }

  lemma StepKeepsInv(r: Registry, a: Action)
    requires Inv(r) && Enabled(r, a)
    ensures Inv(Apply(r, a))
  {
    hide CountInv, NamesInv, SnapshotInv, GoneInv, PassInv, Apply, Enabled;
    StepKeepsPass(r, a);
    StepKeepsCount(r, a);
    StepKeepsNames(r, a);
    StepKeepsSnapshots(r, a);
    if a.Remove? || a.RemoveAll? {
      RemovalKeepsGone(r, a);
    } else {
      OthersKeepGone(r, a);
    }
  }

  lemma {:induction false} RunKeepsInv(rs: seq<Registry>, acts: seq<Action>, k: nat)
    requires IsRun(rs, acts) && k < |rs|
    ensures Inv(rs[k])
  {
    if k > 0 {
      RunKeepsInv(rs, acts, k - 1);
      hide Inv, Apply;
      StepKeepsInv(rs[k - 1], acts[k - 1]);
    }
  }

  // ---------------------------------------------------------------------------------------
  // Main results
  // ---------------------------------------------------------------------------------------

  lemma {:induction false} GoneLasts(rs: seq<Registry>, acts: seq<Action>, k: nat, m: nat)
    requires IsRun(rs, acts) && k <= m < |rs|
    ensures rs[k].gone <= rs[m].gone
  {
    if k < m { GoneLasts(rs, acts, k, m - 1); }
  }

  /** Once a removal has returned on a thread outside any dispatch, the removed registration is
      in no table and in no delivery: its callback is not running and never starts again. */
  lemma RemovedNeverRuns(rs: seq<Registry>, acts: seq<Action>, k: nat, m: nat, reg: nat)
    requires IsRun(rs, acts) && k <= m < |rs| && reg in rs[k].gone
    ensures forall l :: l in rs[m].table ==> l.reg != reg
    ensures forall d :: d in rs[m].deliveries ==>
              && (rs[m].deliveries[d].calling.Some? ==> rs[m].deliveries[d].calling.value.reg != reg)
              && (forall l :: l in rs[m].deliveries[d].snapshot ==> l.reg != reg)
  {
    GoneLasts(rs, acts, k, m);
    RunKeepsInv(rs, acts, m);
  }

  // How deep a thread is in the dispatches of other registries.
  ghost function Depth(acts: seq<Action>, k: nat, thread: nat): int
    requires k <= |acts|
  {
    if k == 0 then 0
    else Depth(acts, k - 1, thread)
         + (if acts[k - 1] == EnterElsewhere(thread) then 1 else if acts[k - 1] == LeaveElsewhere(thread) then -1 else 0)
  }

  lemma StepDepth(r: Registry, a: Action, thread: nat)
    requires Enabled(r, a)
    ensures ElsewhereDepth(Apply(r, a), thread) ==
              ElsewhereDepth(r, thread)
              + (if a == EnterElsewhere(thread) then 1 else if a == LeaveElsewhere(thread) then -1 else 0)
  {
  }

  /** A thread counts as inside a dispatch exactly while it has entered more of them, here or in other
      registries, than it has left. */
  lemma {:induction false} DepthIsHistory(rs: seq<Registry>, acts: seq<Action>, k: nat, thread: nat)
    requires IsRun(rs, acts) && k < |rs|
    ensures ElsewhereDepth(rs[k], thread) == Depth(acts, k, thread)
  {
    if k > 0 {
      hide Apply, Enabled, ElsewhereDepth;
      DepthIsHistory(rs, acts, k - 1, thread);
      StepDepth(rs[k - 1], acts[k - 1], thread);
    } else {
      assert rs[0] == START;
    }
  }

  /** When the removal returns: at once when nothing is being delivered, after the wait
      otherwise, and with every registration of that id taken out of the table. */
  lemma RemovalReturns(r: Registry, thread: nat, id: nat, reg: nat)
    requires Inv(r) && Enabled(r, Remove(thread, id)) && reg in RegsOf(r.table, id) && !InDispatch(r, thread)
    ensures var r' := Apply(r, Remove(thread, id));
            && reg !in Regs(r'.table)
            && (if r.dispatching == 0 then reg in r'.gone else thread in r'.waiting && reg in r'.waiting[thread])
  {
  }

  /** No thread that is inside a dispatch ever waits on one, and every delivery in flight can
      take its next step: a removal cannot deadlock with the deliveries it waits for. */
  lemma NoDispatcherWaits(rs: seq<Registry>, acts: seq<Action>, k: nat)
    requires IsRun(rs, acts) && k < |rs|
    ensures forall t :: t in rs[k].waiting ==> !InDispatch(rs[k], t)
    ensures forall d :: d in rs[k].deliveries ==> Enabled(rs[k], Return(d)) || Enabled(rs[k], End(d))
    ensures rs[k].deliveries == map[] ==> forall t :: t in rs[k].waiting ==> Enabled(rs[k], Wake(t))
  {
    RunKeepsInv(rs, acts, k);
  }

  // Only a clear starts the ids over.
  predicate Restarts(a: Action) {
    a.RemoveAll? && a.restart
  }

  // What a step does to the numbers: deliveries are numbered in turn, clears counted.
  lemma StepCounts(r: Registry, a: Action)
    requires Enabled(r, a)
    ensures Apply(r, a).era == r.era + if Restarts(a) then 1 else 0
    ensures Apply(r, a).nextDelivery == r.nextDelivery + if a.Begin? then 1 else 0
  {
  }

  // A delivery keeps the snapshot it began with, and no other ever gets its number.
  lemma SnapshotStays(r: Registry, a: Action, d: nat)
    requires Enabled(r, a) && d in Apply(r, a).deliveries && (a.Begin? ==> d != r.nextDelivery)
    ensures d in r.deliveries && Apply(r, a).deliveries[d].snapshot == r.deliveries[d].snapshot
  {
  }

  lemma SnapshotTaken(r: Registry, a: Action)
    requires Enabled(r, a) && a.Begin?
    ensures r.nextDelivery in Apply(r, a).deliveries
    ensures Apply(r, a).deliveries[r.nextDelivery].snapshot == Listeners(r.table, a.event)
  {
  }

  lemma {:induction false} RunCounts(rs: seq<Registry>, acts: seq<Action>, b: nat, k: nat)
    requires IsRun(rs, acts) && b <= k < |rs|
    ensures rs[b].nextDelivery <= rs[k].nextDelivery && rs[b].era <= rs[k].era
    ensures rs[b].era == rs[k].era <==> forall l :: b <= l < k ==> !Restarts(acts[l])
    decreases k
  {
    if b < k {
      hide Apply, Enabled, Restarts;
      RunCounts(rs, acts, b, k - 1);
      StepCounts(rs[k - 1], acts[k - 1]);
    }
  }

  lemma {:induction false} SnapshotOfBegin(rs: seq<Registry>, acts: seq<Action>, b: nat, k: nat, d: nat)
    requires IsRun(rs, acts) && b < k < |rs| && acts[b].Begin? && rs[b].nextDelivery == d && d in rs[k].deliveries
    ensures rs[k].deliveries[d].snapshot == Listeners(rs[b].table, acts[b].event)
  {
    hide Apply, Enabled;
    if b == k - 1 {
      SnapshotTaken(rs[b], acts[b]);
    } else {
      StepCounts(rs[b], acts[b]);
      RunCounts(rs, acts, b + 1, k - 1);
      SnapshotStays(rs[k - 1], acts[k - 1], d);
      SnapshotOfBegin(rs, acts, b, k - 1, d);
    }
  }

  lemma CallsFromTable(r: Registry, d: nat)
    requires Inv(r) && Enabled(r, Visit(d))
    ensures d in r.deliveries && d in Apply(r, Visit(d)).deliveries
    ensures var c := Apply(r, Visit(d)).deliveries[d].calling;
            c.Some? ==> c.value in r.deliveries[d].snapshot && (c.value in r.table <==> c.value.era == r.era)
  {
  }

  lemma ListenersOfEra(r: Registry, event: nat)
    requires Inv(r)
    ensures forall l :: l in Listeners(r.table, event) ==> l.era == r.era
  {
  }

  /** Inside a dispatch a removal does not wait, but the delivery skips what it removed. The
      callback that starts is that of a registration in the table at that moment, if and only if
      no clear came since the delivery took its snapshot. */
  lemma StartsOnlyRegistered(rs: seq<Registry>, acts: seq<Action>, b: nat, k: nat, d: nat)
    requires IsRun(rs, acts) && b < k < |acts| && acts[k] == Visit(d)
    requires acts[b].Begin? && rs[b].nextDelivery == d
    ensures d in rs[k + 1].deliveries
    ensures var c := rs[k + 1].deliveries[d].calling;
            c.Some? ==> (c.value in rs[k].table <==> forall l :: b < l < k ==> !Restarts(acts[l]))
  {
    hide Apply, Enabled, Inv;
    RunKeepsInv(rs, acts, b);
    RunKeepsInv(rs, acts, k);
    CallsFromTable(rs[k], d);
    SnapshotOfBegin(rs, acts, b, k, d);
    RunCounts(rs, acts, b, k);
    ListenersOfEra(rs[b], acts[b].event);
  }

  /** One pass of a delivery, from `Begin` or `Again` to the end of the snapshot: each registration of
      the event that was in the table when the delivery began and still is has started exactly once;
      those that started did so in registration order, and none was registered later. */
  lemma EachStartsOnce(rs: seq<Registry>, acts: seq<Action>, b: nat, k: nat, d: nat)
    requires IsRun(rs, acts) && b < k < |rs| && acts[b].Begin? && rs[b].nextDelivery == d && d in rs[k].deliveries
    requires rs[k].deliveries[d].todo == []
    ensures var started := rs[k].deliveries[d].started;
            && (forall l :: l in rs[b].table && l.event == acts[b].event && l in rs[k].table ==> l in started)
            && (forall l :: l in started ==> l in rs[b].table && l.event == acts[b].event)
            && (forall i, j :: 0 <= i < j < |started| ==> started[i].reg < started[j].reg)
  {
    hide IsRun, Apply, Enabled, CountInv, NamesInv, SnapshotInv, GoneInv;
    RunKeepsInv(rs, acts, k);
    SnapshotOfBegin(rs, acts, b, k, d);
    var x := rs[k].deliveries[d];
    assert x.snapshot[..|x.snapshot|] == x.snapshot;
  }

  // What takes the listener `id` away.
  predicate Removes(a: Action, id: nat) {
    a.RemoveAll? || (a.Remove? && a.id == id)
  }

  lemma StepKeepsListener(r: Registry, a: Action, l: Listener)
    requires Enabled(r, a) && l in r.table && !Removes(a, l.id)
    ensures l in Apply(r, a).table
  {
  }

  /** A listener is in the table from its registration until it is removed. */
  lemma {:induction false} RegisteredStays(rs: seq<Registry>, acts: seq<Action>, a: nat, k: nat)
    requires IsRun(rs, acts) && a < k < |rs| && acts[a].Add?
    requires forall m :: a < m < k ==> !Removes(acts[m], rs[a].nextId + 1)
    ensures Listener(acts[a].event, rs[a].nextId + 1, rs[a].nextReg, rs[a].era) in rs[k].table
  {
    if a == k - 1 {
      assert rs[k] == Apply(rs[a], acts[a]);
    } else {
      hide Apply, Enabled, Removes;
      RegisteredStays(rs, acts, a, k - 1);
      StepKeepsListener(rs[k - 1], acts[k - 1],
                        Listener(acts[a].event, rs[a].nextId + 1, rs[a].nextReg, rs[a].era));
    }
  }

  /** So a listener registered before an event and not removed since is called once in every pass
      of its delivery. */
  lemma CalledOnceEachPass(rs: seq<Registry>, acts: seq<Action>, a: nat, b: nat, k: nat, d: nat)
    requires IsRun(rs, acts) && a < b < k < |rs| && acts[a].Add?
    requires acts[b].Begin? && acts[b].event == acts[a].event
    requires forall m :: a < m < k ==> !Removes(acts[m], rs[a].nextId + 1)
    requires rs[b].nextDelivery == d && d in rs[k].deliveries && rs[k].deliveries[d].todo == []
    ensures exists i :: 0 <= i < |rs[k].deliveries[d].started| && rs[k].deliveries[d].started[i].reg == rs[a].nextReg
    ensures forall i, j :: 0 <= i < j < |rs[k].deliveries[d].started| ==>
              rs[k].deliveries[d].started[i].reg != rs[k].deliveries[d].started[j].reg
  {
    hide IsRun, Removes;
    RegisteredStays(rs, acts, a, b);
    RegisteredStays(rs, acts, a, k);
    EachStartsOnce(rs, acts, b, k, d);
  }

  /** A visit starts the callback of a registration that is in the table, and what it starts is the
      next one of the snapshot; the callback running is the one that started last. */
  lemma VisitStarts(r: Registry, d: nat)
    requires Inv(r) && Enabled(r, Visit(d)) && d in r.deliveries
    ensures var x, x' := r.deliveries[d], Apply(r, Visit(d)).deliveries[d];
            && x'.todo == x.todo[1..]
            && (x.todo[0] in r.table ==> x'.calling == Some(x.todo[0]))
            && x'.started == x.started + (if x'.calling.Some? then [x.todo[0]] else [])
            && (x'.calling.Some? ==> x'.calling.value == x.todo[0])
  {
    var l := r.deliveries[d].todo[0];
    if l in r.table {
      var i :| 0 <= i < |r.table| && r.table[i] == l;
      assert Registered(r.table, l.event, l.id);
    }
  }

  /** Why one era of ids: a delivery that began before a clear calls the listener that the clear
      took away, because its id was given out again while the clear was waiting. */
  lemma ClearedStillCalled(owner: nat, dispatcher: nat, cleaner: nat, event: nat)
    returns (rs: seq<Registry>, acts: seq<Action>)
    requires dispatcher != cleaner && owner != cleaner
    ensures IsRun(rs, acts) && |rs| == 6 && acts[4] == Visit(0) && 0 in rs[5].deliveries
    ensures var c := rs[5].deliveries[0].calling; c.Some? && c.value !in rs[5].table
  {
    var l := Listener(event, 1, 0, 0);
    acts := [Add(owner, event), Begin(dispatcher, event), RemoveAll(cleaner, true), Add(owner, event), Visit(0)];
    var r1 := START.(table := [l], nextId := 1, nextReg := 1);
    assert Listeners([l], event) == [l];
    var r2 := r1.(deliveries := map[0 := Delivery(dispatcher, [l], [l], None, [])], nextDelivery := 1, dispatching := 1);
    assert Regs([l]) == {0};
    assert !InDispatch(r2, cleaner);
    var r3 := r2.(table := [], nextId := 0, era := 1, waiting := map[cleaner := {0}]);
    var m := Listener(event, 1, 1, 1);
    var r4 := r3.(table := [m], nextId := 1, nextReg := 2);
    assert r4.table[0].event == event && Registered(r4.table, event, 1);
    var r5 := r4.(deliveries := map[0 := Delivery(dispatcher, [l], [], Some(l), [l])]);
    assert Apply(START, acts[0]) == r1 && Apply(r1, acts[1]) == r2;
    assert Apply(r2, acts[2]) == r3 && Apply(r3, acts[3]) == r4;
    assert [l][1..] == [] && Apply(r4, acts[4]) == r5;
    rs := [START, r1, r2, r3, r4, r5];
  }
}
