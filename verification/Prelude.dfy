/** Shared value types. */
module Prelude {
  datatype Option<+T> = None | Some(value: T)

  datatype Result<+T, +E> = Ok(value: T) | Err(error: E)

  type TaskId = nat
  type NodeId = nat

  /** Cloud provider names are non-empty: the empty string is falsy in the source. */
  type Provider = s: string | |s| > 0 witness "hetzner"

  /** Some number exceeds all of a finite set. */
  lemma {:induction false} FreshId(ids: set<nat>) returns (unused: nat)
    ensures forall id :: id in ids ==> id < unused
  {
    if ids == {} {
      unused := 0;
    } else {
      var id :| id in ids;
      var rest := FreshId(ids - {id});
      unused := if id < rest then rest else id + 1;
      assert forall other :: other in ids ==> other == id || other in ids - {id};
    }
  }
}
