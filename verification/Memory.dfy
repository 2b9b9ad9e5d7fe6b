/** The memory budget of the script: what the allocator's counter means. */
module Memory {
  import opened Options

  /** The sizes of all live blocks together. */
  ghost function Total(blocks: map<nat, nat>): nat {
    if blocks == map[] then 0
    else
      var block :| block in blocks;
      blocks[block] + Total(blocks - {block})
  }

  lemma {:induction false} TotalWithout(blocks: map<nat, nat>, block: nat)
    requires block in blocks
    ensures Total(blocks) == blocks[block] + Total(blocks - {block})
    decreases |blocks|
  {
    var other :| other in blocks && Total(blocks) == blocks[other] + Total(blocks - {other});
    if other != block {
      TotalWithout(blocks - {other}, block);
      TotalWithout(blocks - {block}, other);
      assert blocks - {other} - {block} == blocks - {block} - {other};
    }
  }

  lemma TotalWith(blocks: map<nat, nat>, block: nat, size: nat)
    requires block !in blocks
    ensures Total(blocks[block := size]) == size + Total(blocks)
  {
    TotalWithout(blocks[block := size], block);
    assert blocks[block := size] - {block} == blocks;
  }

  /** The counter without a block, never below zero. */
  function Without(used: nat, size: nat): nat {
    if size > used then 0 else used - size
  }

  class MemoryLimit {
    var used: nat
    const maximum: nat
    ghost var live: map<nat, nat>

    ghost predicate Valid()
      reads this
    {
      used == Total(live) <= maximum
    }

    constructor (maximum: nat)
      ensures Valid() && live == map[] && this.maximum == maximum
    {
      this.maximum := maximum;
      used, live := 0, map[];
    }

    /** `given` is the block the system would return.  The caller names a live block with
        its size, or no block; for no block `oldSize` is a tag that counts for nothing.
        The counter stays the total of the live blocks, never above the maximum, with one
        exception: giving back no block with a tag that is not zero lowers a counter that
        is not zero.  A request is granted exactly if it fits and the system has memory, and giving back
        or shrinking is never refused for the budget. */
    method Allocate(pointer: Option<nat>, oldSize: nat, newSize: nat, given: Option<nat>) returns (result: Option<nat>)
      requires Valid()
      requires pointer.Some? ==> pointer.value in live && live[pointer.value] == oldSize
      requires given.Some? ==> given.value !in live || pointer == given
      modifies this
      ensures Valid() <==> pointer.Some? || newSize > 0 || oldSize == 0 || old(used) == 0
      ensures var others := if pointer.Some? then old(live) - {pointer.value} else old(live);
              if newSize == 0 then result == None && live == others
              else if given.Some? && Total(others) + newSize <= maximum
              then result == given && live == others[given.value := newSize]
              else result == None && live == old(live)
      ensures pointer.Some? && 0 < newSize <= oldSize && given.Some? ==> result.Some?
    {
      ghost var others := if pointer.Some? then live - {pointer.value} else live;
      if pointer.Some? { TotalWithout(live, pointer.value); }
      if newSize == 0 {
        used := Without(used, oldSize);
        live := others;
        return None;
      }
      var base := if pointer.Some? then Without(used, oldSize) else used;
      if newSize > maximum || base > maximum - newSize {
        return None;
      }
      result := given;
      if result.Some? {
        TotalWith(others, result.value, newSize);
        used := base + newSize;
        live := others[result.value := newSize];
      }
    }
  }
}
