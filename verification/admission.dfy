/** How submits are counted in and out of `FFIOutbound.outstanding`: an unconditional add, a
    check of what it returned, and a back-off when the bound was reached. One step per atomic
    access, any number of submitters. */
module Admission {
  datatype Ledger = Ledger(
    bound: nat,             // MaxOutstandingRequests
    outstanding: int,
    admitted: set<nat>,     // requests counted in and not collected
    refused: set<nat>,      // between their add and their back-off
    settled: set<nat>)      // backed off, or collected and deleted

  datatype Action = FetchAdd(id: nat) | BackOff(id: nat) | Delete(id: nat)

  predicate Init(l: Ledger) {
    l.outstanding == 0 && l.admitted == {} && l.refused == {} && l.settled == {}
  }

  predicate Enabled(l: Ledger, a: Action) {
    match a
    case FetchAdd(id) => id !in l.admitted + l.refused + l.settled
    case BackOff(id) => id in l.refused
    case Delete(id) => id in l.admitted
  }

  function Apply(l: Ledger, a: Action): Ledger {
    match a
    case FetchAdd(id) =>
      if l.outstanding >= l.bound then l.(outstanding := l.outstanding + 1, refused := l.refused + {id})
      else l.(outstanding := l.outstanding + 1, admitted := l.admitted + {id})
    case BackOff(id) => l.(outstanding := l.outstanding - 1, refused := l.refused - {id}, settled := l.settled + {id})
    case Delete(id) => l.(outstanding := l.outstanding - 1, admitted := l.admitted - {id}, settled := l.settled + {id})
  }

  ghost predicate IsRun(ls: seq<Ledger>, acts: seq<Action>) {
    && |ls| == |acts| + 1 && Init(ls[0])
    && forall i :: 0 <= i < |acts| ==> Enabled(ls[i], acts[i]) && ls[i + 1] == Apply(ls[i], acts[i])
  }

  predicate Inv(l: Ledger) {
    && l.outstanding == |l.admitted| + |l.refused|
    && |l.admitted| <= l.bound
    && l.admitted !! l.refused !! l.settled
  }

  lemma Sizes(s: set<nat>, id: nat)
    ensures id !in s ==> |s + {id}| == |s| + 1
    ensures id in s ==> |s - {id}| == |s| - 1
  {
  }

  lemma StepKeepsCount(l: Ledger, a: Action)
    requires Inv(l) && Enabled(l, a)
    ensures var l' := Apply(l, a); l'.outstanding == |l'.admitted| + |l'.refused| && |l'.admitted| <= l'.bound
  {
    Sizes(l.admitted, a.id);
    Sizes(l.refused, a.id);
  }

  lemma StepKeepsApart(l: Ledger, a: Action)
    requires l.admitted !! l.refused !! l.settled && Enabled(l, a)
    ensures var l' := Apply(l, a); l'.admitted !! l'.refused !! l'.settled
  {
  }

  lemma StepKeepsInv(l: Ledger, a: Action)
    requires Inv(l) && Enabled(l, a)
    ensures Inv(Apply(l, a))
  {
    hide Apply, Enabled;
    StepKeepsCount(l, a);
    StepKeepsApart(l, a);
  }

  lemma {:induction false} RunKeepsInv(ls: seq<Ledger>, acts: seq<Action>, k: nat)
    requires IsRun(ls, acts) && k < |ls|
    ensures Inv(ls[k]) && ls[k].bound == ls[0].bound
  {
    if k > 0 {
      RunKeepsInv(ls, acts, k - 1);
      StepKeepsInv(ls[k - 1], acts[k - 1]);
    }
  }

  /** Under any interleaving the admitted, uncollected requests never exceed the bound, and the
      counter is their number plus the submits that have yet to take their add back. */
  lemma AdmissionBound(ls: seq<Ledger>, acts: seq<Action>, k: nat)
    requires IsRun(ls, acts) && k < |ls|
    ensures |ls[k].admitted| <= ls[0].bound
    ensures ls[k].outstanding == |ls[k].admitted| + |ls[k].refused|
  {
    RunKeepsInv(ls, acts, k);
  }

  /** A submit is refused exactly when the admitted requests and the pending back-offs together
      fill the bound; with no back-off pending, exactly when the bound is full. */
  lemma RefusedIff(ls: seq<Ledger>, acts: seq<Action>, k: nat, id: nat)
    requires IsRun(ls, acts) && k < |acts| && acts[k] == FetchAdd(id)
    ensures id in ls[k + 1].refused <==> |ls[k].admitted| + |ls[k].refused| >= ls[0].bound
    ensures id in ls[k + 1].admitted <==> id !in ls[k + 1].refused
    ensures ls[k].refused == {} ==> (id in ls[k + 1].refused <==> |ls[k].admitted| == ls[0].bound)
  {
    RunKeepsInv(ls, acts, k);
    assert Enabled(ls[k], acts[k]) && ls[k + 1] == Apply(ls[k], acts[k]);
  }
}
