/**
 * The memory-type rule of memoryTypeFromProperties: the first memory type that
 * the resource allows (its bit in memoryTypeBits) and that has every required
 * property flag.
 */
module Memory {
  import opened Vk

  /** typeBits shifted right i times by one place (`>>= 1` on an unsigned value is halving), as the scan does it. */
  function Shifted(typeBits: uint32, i: nat): uint32
  {
    if i == 0 then typeBits else Shifted(typeBits, i - 1) / 2
  }

  /** Bit i of typeBits is set: the resource may live in memory type i. */
  predicate TypeAllowed(typeBits: uint32, i: nat)
  {
    Shifted(typeBits, i) % 2 == 1
  }

  /** Memory type i is a valid answer for (typeBits, mask). */
  predicate Eligible(memoryTypes: MemoryTypeTable, typeBits: uint32, mask: Flags, i: int)
  {
    0 <= i < |memoryTypes| && TypeAllowed(typeBits, i) && HasAll(memoryTypes[i].propertyFlags, mask)
  }

  /** The first eligible memory type, if there is one. */
  function FirstEligible(memoryTypes: MemoryTypeTable, typeBits: uint32, mask: Flags): (r: Option<uint32>)
    ensures r.Some? ==> Eligible(memoryTypes, typeBits, mask, r.value)
    ensures r.Some? ==> forall j :: 0 <= j < r.value ==> !Eligible(memoryTypes, typeBits, mask, j)
    ensures r.None? ==> forall j :: 0 <= j < |memoryTypes| ==> !Eligible(memoryTypes, typeBits, mask, j)
    decreases |memoryTypes|
  {
    if |memoryTypes| == 0 then None
    else
      var init := memoryTypes[..|memoryTypes| - 1];
      var k := FirstEligible(init, typeBits, mask);
      assert forall j :: 0 <= j < |init| ==>
        Eligible(init, typeBits, mask, j) == Eligible(memoryTypes, typeBits, mask, j);
      if k.Some? then k
      else if Eligible(memoryTypes, typeBits, mask, |memoryTypes| - 1) then Some(|memoryTypes| - 1)
      else None
  }

  /** An index with the two properties of the first eligible type is the first eligible type. */
  lemma FirstEligibleUnique(memoryTypes: MemoryTypeTable, typeBits: uint32, mask: Flags, i: uint32)
    requires Eligible(memoryTypes, typeBits, mask, i)
    requires forall j :: 0 <= j < i ==> !Eligible(memoryTypes, typeBits, mask, j)
    ensures FirstEligible(memoryTypes, typeBits, mask) == Some(i)
  {
  }

  /** One step of the scan: `bits` holds typeBits shifted i places. */
  lemma {:induction false} ScanStep(memoryTypes: MemoryTypeTable, typeBits: uint32, mask: Flags, i: nat, bits: uint32)
    requires i < |memoryTypes| && bits == Shifted(typeBits, i)
    ensures Eligible(memoryTypes, typeBits, mask, i) <==> bits % 2 == 1 && HasAll(memoryTypes[i].propertyFlags, mask)
  {
  }

  /** Shifting once more gives the next step's bits. */
  lemma ShiftStep(typeBits: uint32, i: nat)
    ensures Shifted(typeBits, i) / 2 == Shifted(typeBits, i + 1)
  {
  }

  /** When no memory type is eligible there is no first eligible type. */
  lemma NoneEligible(memoryTypes: MemoryTypeTable, typeBits: uint32, mask: Flags)
    requires forall j :: 0 <= j < |memoryTypes| ==> !Eligible(memoryTypes, typeBits, mask, j)
    ensures FirstEligible(memoryTypes, typeBits, mask).None?
  {
  }

  /** Requiring no property flags accepts the first allowed type. */
  lemma NoRequirementFirstAllowed(memoryTypes: MemoryTypeTable, typeBits: uint32, i: uint32)
    requires i < |memoryTypes| && TypeAllowed(typeBits, i)
    requires forall j :: 0 <= j < i ==> !TypeAllowed(typeBits, j)
    ensures FirstEligible(memoryTypes, typeBits, 0) == Some(i)
  {
    assert HasAll(memoryTypes[i].propertyFlags, 0);
    FirstEligibleUnique(memoryTypes, typeBits, 0, i);
  }

  /**
   * Requiring more property flags can only move the answer later: whatever
   * satisfies the larger mask satisfies the smaller one.
   */
  lemma StricterMaskNotEarlier(memoryTypes: MemoryTypeTable, typeBits: uint32, mask: Flags, extra: Flags)
    requires FirstEligible(memoryTypes, typeBits, mask | extra).Some?
    ensures FirstEligible(memoryTypes, typeBits, mask).Some?
    ensures FirstEligible(memoryTypes, typeBits, mask).value <= FirstEligible(memoryTypes, typeBits, mask | extra).value
  {
    var i := FirstEligible(memoryTypes, typeBits, mask | extra).value;
    MaskWeaken(memoryTypes[i].propertyFlags, mask, extra);
    assert Eligible(memoryTypes, typeBits, mask, i);
  }

  /** Every flag of mask | extra present implies every flag of mask present. */
  lemma MaskWeaken(flags: Flags, mask: Flags, extra: Flags)
    requires HasAll(flags, mask | extra)
    ensures HasAll(flags, mask)
  {
  }
}
