/**
 * CheckSumLines: the record of numbered, checksummed lines sent to the
 * printer, kept so that a line the printer asks for again can be resent.
 * Only the last sixteen lines are stored, in a ring indexed by the line's
 * position modulo sixteen; the count of lines added only grows until Clear.
 */
module ChecksumLedger {
  import opened Strings

  const RingBufferCount: int := 16

  /** C#'s `index % 16`: the remainder takes the sign of the dividend. */
  function SlotOf(index: int): (r: int)
    ensures index >= 0 ==> r == index % 16
    ensures -16 < r < 16
    ensures r < 0 <==> index < 0 && index % 16 != 0
  {
    if index >= 0 then index % 16 else -((-index) % 16)
  }

  class CheckSumLines {
    const ringBuffer: array<string>
    var addedCount: int
    /** Every line added since the last Clear, oldest first. */
    ghost var lines: seq<string>

    ghost predicate Valid()
      reads this, ringBuffer
    {
      && ringBuffer.Length == RingBufferCount
      && addedCount == |lines|
      && forall k :: 0 <= k < |lines| && |lines| - RingBufferCount <= k ==>
           ringBuffer[k % RingBufferCount] == lines[k]
    }

    /** A fresh ledger: nothing added, every slot still the default (null) string. */
    constructor ()
      ensures Valid() && fresh(ringBuffer)
      ensures lines == [] && Count() == 0
    {
      ringBuffer := new string[RingBufferCount](_ => "");
      addedCount := 0;
      lines := [];
    }

    function Count(): int
      reads this
    {
      addedCount
    }

    /**
     * The indexer `this[index]`: the slot `index % 16` with C#'s remainder,
     * so an index that leaves a negative remainder fails (an
     * IndexOutOfRangeException in the source), and any of the last sixteen
     * lines added is read back exactly.
     */
    function Get(index: int): (r: Option<string>)
      reads this, ringBuffer
      requires Valid()
      ensures r.None? <==> index < 0 && index % RingBufferCount != 0
      ensures 0 <= index < Count() && Count() - RingBufferCount <= index ==> r == Some(lines[index])
    {
      var slot := SlotOf(index);
      if slot < 0 then None else Some(ringBuffer[slot])
    }

    /** Add: stores the line in slot `Count % 16` and counts it. */
    method Add(lineWithChecksum: string)
      requires Valid()
      modifies this, ringBuffer
      ensures Valid()
      ensures lines == old(lines) + [lineWithChecksum]
      ensures Count() == old(Count()) + 1
      ensures Get(Count() - 1) == Some(lineWithChecksum)
      ensures ringBuffer[..] == old(ringBuffer[..])[old(Count()) % RingBufferCount := lineWithChecksum]
    {
      ringBuffer[addedCount % RingBufferCount] := lineWithChecksum;
      addedCount := addedCount + 1;
      lines := lines + [lineWithChecksum];
      forall k | 0 <= k < |lines| && |lines| - RingBufferCount <= k
        ensures ringBuffer[k % RingBufferCount] == lines[k]
      {
        if k < |lines| - 1 {
          SlotsDiffer(k, |lines| - 1);
        }
      }
    }

    /** Clear: forgets the count; the slots keep their old contents. */
    method Clear()
      requires Valid()
      modifies this
      ensures Valid()
      ensures lines == [] && Count() == 0
      ensures ringBuffer[..] == old(ringBuffer[..])
    {
      addedCount := 0;
      lines := [];
    }
  }

  /** Two of the last sixteen positions never share a slot. */
  lemma SlotsDiffer(j: int, k: int)
    requires 0 <= j < k < j + RingBufferCount
    ensures j % RingBufferCount != k % RingBufferCount
  {
  }
}
