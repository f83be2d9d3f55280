/**
 * A pygame sprite group: a collection of live sprites of one kind.
 * `kill()` on a sprite removes it from its group and does nothing when the
 * sprite is already gone.
 */
module Sprites {

  class Group<T(==)> {
    var members: set<T>

    constructor ()
      ensures members == {}
    {
      members := {};
    }

    /** `group.add(sprite)`; adding a member again changes nothing. */
    method Add(x: T)
      modifies this
      ensures members == old(members) + {x}
    {
      members := members + {x};
    }

    /** `sprite.kill()` for a sprite of this group. */
    method Kill(x: T)
      modifies this
      ensures members == old(members) - {x}
    {
      members := members - {x};
    }

    /** `group.empty()`. */
    method Empty()
      modifies this
      ensures members == {}
    {
      members := {};
    }
  }

  /** The group contents after `kill`. */
  function Killed<T>(members: set<T>, x: T): (r: set<T>)
    ensures x !in r && r <= members
    ensures forall y :: y in members && y != x ==> y in r
  {
    members - {x}
  }

  /** Killing a sprite twice leaves the same group as killing it once. */
  lemma KillIdempotent<T>(members: set<T>, x: T)
    ensures Killed(Killed(members, x), x) == Killed(members, x)
  {
  }
}
