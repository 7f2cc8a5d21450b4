/**
 * The identifier generator behind `NewUID`: it remembers the last identifier
 * it issued and draws fresh time-based candidates until one differs from it.
 */
module Uids {
  import opened Inventory

  /**
   * Within `window` successive draws the clock has moved on: the candidate
   * drawn `window` calls after another one is a different identifier.
   */
  ghost predicate Advances(source: nat -> Uid, window: nat) {
    forall t: nat, u: nat :: u == t + window ==> source(t) != source(u)
  }

  /** No identifier in `ids` equals the one issued just before it. */
  ghost predicate ConsecutiveDistinct(ids: seq<Uid>) {
    forall i :: 0 < i < |ids| ==> ids[i - 1] != ids[i]
  }

  class UidGenerator {
    /** The value the UUID library returns on its n-th call. */
    const source: nat -> Uid
    /** How many draws it may take for the candidate to change. */
    const window: nat
    /** How many candidates have been drawn so far. */
    var clock: nat
    /** `lastUUID`: the identifier issued by the previous call. */
    var last: Uid
    /** Every identifier issued so far, in order. */
    ghost var issued: seq<Uid>

    ghost predicate Valid()
      reads this
    {
      && window > 0
      && Advances(source, window)
      && (issued == [] ==> last == NO_UID)
      && (issued != [] ==> last == issued[|issued| - 1])
      && ConsecutiveDistinct(issued)
    }

    constructor (source: nat -> Uid, window: nat)
      requires window > 0 && Advances(source, window)
      ensures Valid()
      ensures this.source == source && this.window == window
      ensures clock == 0 && last == NO_UID && issued == []
    {
      this.source := source;
      this.window := window;
      clock := 0;
      last := NO_UID;
      issued := [];
    }

    /**
     * `NewUID`: the first candidate that differs from the last issued
     * identifier becomes the new last identifier and is returned. The
     * guarantee is against the previous identifier only.
     */
    method NewUid() returns (id: Uid)
      requires Valid()
      modifies this
      ensures Valid()
      ensures id != old(last) && last == id
      ensures issued == old(issued) + [id]
      ensures old(clock) < clock <= old(clock) + window + 1
      ensures id == source(clock - 1)
      ensures forall t :: old(clock) <= t < clock - 1 ==> source(t) == old(last)
    {
      ghost var start := clock;
      var result := source(clock);
      clock := clock + 1;
      while result == last
        invariant last == old(last) && issued == old(issued)
        invariant start < clock <= start + window + 1
        invariant result == source(clock - 1)
        invariant forall t :: start <= t < clock - 1 ==> source(t) == last
        decreases start + window + 1 - clock
      {
        // The candidates drawn so far all equal `last`, so the window has not run out.
        assert source(start) == last;
        result := source(clock);
        clock := clock + 1;
      }
      last := result;
      issued := issued + [result];
      id := result;
    }
  }
}
