/** What several modules need: optional values, and addresses an allocator can hand out. */
module Wrappers {
  datatype Option<+T> = None | Some(value: T)

  // Above every address in use; the allocators may pick any that is not in use.
  lemma FreshAddr(used: set<nat>, floor: nat) returns (p: nat)
    ensures p > floor && forall q :: q in used ==> q < p
  {
    if used == {} {
      p := floor + 1;
    } else {
      var q :| q in used;
      var p' := FreshAddr(used - {q}, floor);
      assert forall r :: r in used ==> r == q || r in used - {q};
      p := if p' <= q then q + 1 else p';
    }
  }
}
