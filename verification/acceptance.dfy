/**
  The acceptance-filter calculator: AMR (mask) and ACR (code) values for the
  SJA1000-style filter of a channel, computed from a range of CAN identifiers.
  A set AMR bit means "don't care"; where the AMR bit is clear, the incoming
  frame's bit must equal the ACR bit. Extended (29-bit) identifiers occupy
  register bits 3..31 with the RTR bit at bit 2; standard (11-bit) identifiers
  occupy bits 21..31 with the RTR bit at bit 20.

  Python integers are unbounded, but the results are stored into the 32-bit
  `AMR`/`ACR` fields, so identifiers and results are modelled as `bv32`: the
  stored register depends only on the low 32 bits of each identifier, and a
  shift here drops exactly the bits the store would drop.
 */
module Acceptance {

  /** The filter that lets every frame through. */
  const AMR_ALL: bv32 := 0xFFFF_FFFF
  const ACR_ALL: bv32 := 0x0

  const EXT_ID_FIELD: bv32 := 0xFFFF_FFF8
  const STD_ID_FIELD: bv32 := 0xFFE0_0000
  const EXT_RTR_BIT: bv32 := 0x4
  const STD_RTR_BIT: bv32 := 0x10_0000

  /** `calculate_amr`: bits where the two identifiers differ become "don't care". */
  function CalculateAmr(isExtended: bool, fromId: bv32, toId: bv32, rtrOnly: bool, rtrToo: bool): bv32
  {
    if isExtended then ((fromId ^ toId) << 3) | (if rtrToo && !rtrOnly then 0x7 else 0x3)
    else ((fromId ^ toId) << 21) | (if rtrToo && !rtrOnly then 0x1F_FFFF else 0xF_FFFF)
  }

  /** `calculate_acr`: the bits the two identifiers share; `rtr_too` plays no part. */
  function CalculateAcr(isExtended: bool, fromId: bv32, toId: bv32, rtrOnly: bool, rtrToo: bool): bv32
  {
    if isExtended then ((fromId & toId) << 3) | (if rtrOnly then 0x4 else 0x0)
    else ((fromId & toId) << 21) | (if rtrOnly then 0x10_0000 else 0x0)
  }

  /** An extended identifier in its register position. */
  function ExtShift(id: bv32): bv32
  {
    id << 3
  }

  /** A standard identifier in its register position. */
  function StdShift(id: bv32): bv32
  {
    id << 21
  }

  /** The bits of `word` selected by `field` pass the filter: wherever the mask does not
      release a bit, the word agrees with the code. */
  predicate Passes(word: bv32, amr: bv32, acr: bv32, field: bv32)
  {
    ((word ^ acr) & !amr) & field == 0
  }

  /** The filter passes the identifier of a frame of the given format. */
  predicate AcceptsId(isExtended: bool, amr: bv32, acr: bv32, id: bv32)
  {
    if isExtended then Passes(ExtShift(id), amr, acr, EXT_ID_FIELD)
    else Passes(StdShift(id), amr, acr, STD_ID_FIELD)
  }

  /** The filter passes the frame type: remote (RTR) or data frame. */
  predicate AcceptsFrameType(isExtended: bool, amr: bv32, acr: bv32, rtr: bool)
  {
    if isExtended then Passes(if rtr then EXT_RTR_BIT else 0, amr, acr, EXT_RTR_BIT)
    else Passes(if rtr then STD_RTR_BIT else 0, amr, acr, STD_RTR_BIT)
  }

  /** Identifiers that fit the frame format: 29 bits extended, 11 bits standard. */
  predicate IdFits(isExtended: bool, id: bv32)
  {
    if isExtended then id < 0x2000_0000 else id < 0x800
  }

  // ---------------------------------------------------------------------
  // Register-field facts, one bit-level conclusion each
  // ---------------------------------------------------------------------

  lemma AmrExtField(fromId: bv32, toId: bv32, rtrOnly: bool, rtrToo: bool)
    ensures CalculateAmr(true, fromId, toId, rtrOnly, rtrToo) & EXT_ID_FIELD == ExtShift(fromId) ^ ExtShift(toId)
  {
  }

  lemma AmrStdField(fromId: bv32, toId: bv32, rtrOnly: bool, rtrToo: bool)
    ensures CalculateAmr(false, fromId, toId, rtrOnly, rtrToo) & STD_ID_FIELD == StdShift(fromId) ^ StdShift(toId)
  {
  }

  lemma AcrExtField(fromId: bv32, toId: bv32, rtrOnly: bool, rtrToo: bool)
    ensures CalculateAcr(true, fromId, toId, rtrOnly, rtrToo) & EXT_ID_FIELD == ExtShift(fromId) & ExtShift(toId)
  {
  }

  lemma AcrStdField(fromId: bv32, toId: bv32, rtrOnly: bool, rtrToo: bool)
    ensures CalculateAcr(false, fromId, toId, rtrOnly, rtrToo) & STD_ID_FIELD == StdShift(fromId) & StdShift(toId)
  {
  }

  lemma AmrExtLow(fromId: bv32, toId: bv32, rtrOnly: bool, rtrToo: bool)
    ensures CalculateAmr(true, fromId, toId, rtrOnly, rtrToo) & 0x7 == (if rtrToo && !rtrOnly then EXT_RTR_BIT else 0) | 0x3
  {
  }

  lemma AmrStdLow(fromId: bv32, toId: bv32, rtrOnly: bool, rtrToo: bool)
    ensures CalculateAmr(false, fromId, toId, rtrOnly, rtrToo) & 0x1F_FFFF == (if rtrToo && !rtrOnly then STD_RTR_BIT else 0) | 0xF_FFFF
  {
  }

  lemma AcrExtLow(fromId: bv32, toId: bv32, rtrOnly: bool, rtrToo: bool)
    ensures CalculateAcr(true, fromId, toId, rtrOnly, rtrToo) & 0x7 == (if rtrOnly then EXT_RTR_BIT else 0)
  {
  }

  lemma AcrStdLow(fromId: bv32, toId: bv32, rtrOnly: bool, rtrToo: bool)
    ensures CalculateAcr(false, fromId, toId, rtrOnly, rtrToo) & 0x1F_FFFF == (if rtrOnly then STD_RTR_BIT else 0)
  {
  }

  /** The register layout of both results for extended identifiers: in the identifier
      field the mask holds the bits in which the two shifted identifiers differ and the code
      the bits they share; below it, the mask releases the RTR bit only for `rtr_too`
      without `rtr_only` and bits 0-1 always, while the code requires the RTR bit only for
      `rtr_only`. */
  lemma {:induction false} RegisterLayoutExt(fromId: bv32, toId: bv32, rtrOnly: bool, rtrToo: bool)
    ensures CalculateAmr(true, fromId, toId, rtrOnly, rtrToo) & EXT_ID_FIELD == ExtShift(fromId) ^ ExtShift(toId)
    ensures CalculateAcr(true, fromId, toId, rtrOnly, rtrToo) & EXT_ID_FIELD == ExtShift(fromId) & ExtShift(toId)
    ensures CalculateAmr(true, fromId, toId, rtrOnly, rtrToo) & 0x7 == (if rtrToo && !rtrOnly then EXT_RTR_BIT else 0) | 0x3
    ensures CalculateAcr(true, fromId, toId, rtrOnly, rtrToo) & 0x7 == (if rtrOnly then EXT_RTR_BIT else 0)
  {
    AmrExtField(fromId, toId, rtrOnly, rtrToo);
    AcrExtField(fromId, toId, rtrOnly, rtrToo);
    AmrExtLow(fromId, toId, rtrOnly, rtrToo);
    AcrExtLow(fromId, toId, rtrOnly, rtrToo);
  }

  /** The same layout for standard identifiers: identifier field in bits 21-31, RTR bit 20,
      bits 0-19 always released by the mask and never required by the code. */
  lemma {:induction false} RegisterLayoutStd(fromId: bv32, toId: bv32, rtrOnly: bool, rtrToo: bool)
    ensures CalculateAmr(false, fromId, toId, rtrOnly, rtrToo) & STD_ID_FIELD == StdShift(fromId) ^ StdShift(toId)
    ensures CalculateAcr(false, fromId, toId, rtrOnly, rtrToo) & STD_ID_FIELD == StdShift(fromId) & StdShift(toId)
    ensures CalculateAmr(false, fromId, toId, rtrOnly, rtrToo) & 0x1F_FFFF
            == (if rtrToo && !rtrOnly then STD_RTR_BIT else 0) | 0xF_FFFF
    ensures CalculateAcr(false, fromId, toId, rtrOnly, rtrToo) & 0x1F_FFFF == (if rtrOnly then STD_RTR_BIT else 0)
  {
    AmrStdField(fromId, toId, rtrOnly, rtrToo);
    AcrStdField(fromId, toId, rtrOnly, rtrToo);
    AmrStdLow(fromId, toId, rtrOnly, rtrToo);
    AcrStdLow(fromId, toId, rtrOnly, rtrToo);
  }

  /** A mask holding `a ^ b` and a code holding `a & b` on a field pass both `a` and `b`. */
  lemma EndpointCore(a: bv32, b: bv32, x: bv32, amr: bv32, acr: bv32, field: bv32)
    requires x == a || x == b
    requires amr & field == a ^ b
    requires acr & field == a & b
    ensures Passes(x, amr, acr, field)
  {
  }

  /** A mask clear on a field and a code holding `a` there pass exactly the words that agree
      with `a` on that field. */
  lemma ExactCore(a: bv32, x: bv32, amr: bv32, acr: bv32, field: bv32)
    requires amr & field == 0
    requires acr & field == a & field
    ensures Passes(x, amr, acr, field) <==> x & field == a & field
  {
    if Passes(x, amr, acr, field) {
      ExactOnlyIf(a, x, amr, acr, field);
    }
    if x & field == a & field {
      ExactIf(a, x, amr, acr, field);
    }
  }

  lemma ExactOnlyIf(a: bv32, x: bv32, amr: bv32, acr: bv32, field: bv32)
    requires amr & field == 0
    requires acr & field == a & field
    requires ((x ^ acr) & !amr) & field == 0
    ensures x & field == a & field
  {
  }

  lemma ExactIf(a: bv32, x: bv32, amr: bv32, acr: bv32, field: bv32)
    requires amr & field == 0
    requires acr & field == a & field
    requires x & field == a & field
    ensures ((x ^ acr) & !amr) & field == 0
  {
  }

  /** A 29-bit identifier is recovered from its register field. */
  lemma ExtInjective(x: bv32, y: bv32)
    requires x < 0x2000_0000 && y < 0x2000_0000
    ensures ExtShift(x) & EXT_ID_FIELD == ExtShift(y) & EXT_ID_FIELD <==> x == y
  {
    ExtShiftInField(x);
    ExtShiftInField(y);
    ExtShiftBack(x);
    ExtShiftBack(y);
  }

  lemma ExtShiftInField(x: bv32)
    ensures ExtShift(x) & EXT_ID_FIELD == ExtShift(x)
  {
  }

  lemma ExtShiftBack(x: bv32)
    requires x < 0x2000_0000
    ensures ExtShift(x) >> 3 == x
  {
  }

  /** An 11-bit identifier is recovered from its register field. */
  lemma StdInjective(x: bv32, y: bv32)
    requires x < 0x800 && y < 0x800
    ensures StdShift(x) & STD_ID_FIELD == StdShift(y) & STD_ID_FIELD <==> x == y
  {
  }

  // ---------------------------------------------------------------------
  // Properties of the calculator
  // ---------------------------------------------------------------------

  /** The mask and the code never have a set bit in common. */
  lemma AmrAcrDisjoint(isExtended: bool, fromId: bv32, toId: bv32, rtrOnly: bool, rtrToo: bool)
    ensures CalculateAmr(isExtended, fromId, toId, rtrOnly, rtrToo)
            & CalculateAcr(isExtended, fromId, toId, rtrOnly, rtrToo) == 0
  {
    if isExtended {
      AmrAcrDisjointExt(fromId, toId, rtrOnly, rtrToo);
    } else {
      AmrAcrDisjointStd(fromId, toId, rtrOnly, rtrToo);
    }
  }

  lemma AmrAcrDisjointExt(fromId: bv32, toId: bv32, rtrOnly: bool, rtrToo: bool)
    ensures CalculateAmr(true, fromId, toId, rtrOnly, rtrToo) & CalculateAcr(true, fromId, toId, rtrOnly, rtrToo) == 0
  {
  }

  lemma AmrAcrDisjointStd(fromId: bv32, toId: bv32, rtrOnly: bool, rtrToo: bool)
    ensures CalculateAmr(false, fromId, toId, rtrOnly, rtrToo) & CalculateAcr(false, fromId, toId, rtrOnly, rtrToo) == 0
  {
  }

  /** For a single identifier the mask releases no identifier bit: it is exactly the bits
      below the identifier field, RTR bit included only when both frame types are wanted. */
  lemma SingleIdAmr(isExtended: bool, id: bv32, rtrOnly: bool, rtrToo: bool)
    ensures CalculateAmr(isExtended, id, id, rtrOnly, rtrToo)
            == if isExtended then (if rtrToo && !rtrOnly then 0x7 else 0x3)
               else (if rtrToo && !rtrOnly then 0x1F_FFFF else 0xF_FFFF)
  {
  }

  /** For a single identifier the code is the identifier in its field plus the RTR bit. */
  lemma SingleIdAcr(isExtended: bool, id: bv32, rtrOnly: bool, rtrToo: bool)
    ensures CalculateAcr(isExtended, id, id, rtrOnly, rtrToo)
            == if isExtended then ExtShift(id) | (if rtrOnly then EXT_RTR_BIT else 0)
               else StdShift(id) | (if rtrOnly then STD_RTR_BIT else 0)
  {
    if isExtended {
      SingleIdAcrExt(id, rtrOnly, rtrToo);
    } else {
      SingleIdAcrStd(id, rtrOnly, rtrToo);
    }
  }

  lemma SingleIdAcrExt(id: bv32, rtrOnly: bool, rtrToo: bool)
    ensures CalculateAcr(true, id, id, rtrOnly, rtrToo) == ExtShift(id) | (if rtrOnly then EXT_RTR_BIT else 0)
  {
    SelfAnd(id);
  }

  lemma SingleIdAcrStd(id: bv32, rtrOnly: bool, rtrToo: bool)
    ensures CalculateAcr(false, id, id, rtrOnly, rtrToo) == StdShift(id) | (if rtrOnly then STD_RTR_BIT else 0)
  {
    SelfAnd(id);
  }

  lemma SelfAnd(id: bv32)
    ensures id & id == id
  {
  }

  /** `rtr_only` selects remote frames alone, otherwise `rtr_too` selects both frame types,
      otherwise only data frames pass. */
  lemma FrameTypeSelection(isExtended: bool, fromId: bv32, toId: bv32, rtrOnly: bool, rtrToo: bool, rtr: bool)
    ensures AcceptsFrameType(isExtended, CalculateAmr(isExtended, fromId, toId, rtrOnly, rtrToo),
                             CalculateAcr(isExtended, fromId, toId, rtrOnly, rtrToo), rtr)
            <==> if rtrOnly then rtr else rtrToo || !rtr
  {
  }

  /** The filter computed for a range passes both ends of the range: extended format. */
  lemma {:induction false} RangeEndsExt(fromId: bv32, toId: bv32, rtrOnly: bool, rtrToo: bool, id: bv32)
    requires id == fromId || id == toId
    ensures Passes(ExtShift(id), CalculateAmr(true, fromId, toId, rtrOnly, rtrToo),
                   CalculateAcr(true, fromId, toId, rtrOnly, rtrToo), EXT_ID_FIELD)
  {
    AmrExtField(fromId, toId, rtrOnly, rtrToo);
    AcrExtField(fromId, toId, rtrOnly, rtrToo);
    EndpointCore(ExtShift(fromId), ExtShift(toId), ExtShift(id), CalculateAmr(true, fromId, toId, rtrOnly, rtrToo),
                 CalculateAcr(true, fromId, toId, rtrOnly, rtrToo), EXT_ID_FIELD);
  }

  /** The filter computed for a range passes both ends of the range: standard format. */
  lemma {:induction false} RangeEndsStd(fromId: bv32, toId: bv32, rtrOnly: bool, rtrToo: bool, id: bv32)
    requires id == fromId || id == toId
    ensures Passes(StdShift(id), CalculateAmr(false, fromId, toId, rtrOnly, rtrToo),
                   CalculateAcr(false, fromId, toId, rtrOnly, rtrToo), STD_ID_FIELD)
  {
    AmrStdField(fromId, toId, rtrOnly, rtrToo);
    AcrStdField(fromId, toId, rtrOnly, rtrToo);
    EndpointCore(StdShift(fromId), StdShift(toId), StdShift(id), CalculateAmr(false, fromId, toId, rtrOnly, rtrToo),
                 CalculateAcr(false, fromId, toId, rtrOnly, rtrToo), STD_ID_FIELD);
  }

  /** The filter computed for a range passes both ends of the range. */
  lemma {:induction false} RangeEndsAccepted(isExtended: bool, fromId: bv32, toId: bv32, rtrOnly: bool,
                                             rtrToo: bool, id: bv32)
    requires id == fromId || id == toId
    ensures AcceptsId(isExtended, CalculateAmr(isExtended, fromId, toId, rtrOnly, rtrToo),
                      CalculateAcr(isExtended, fromId, toId, rtrOnly, rtrToo), id)
  {
    if isExtended {
      RangeEndsExt(fromId, toId, rtrOnly, rtrToo, id);
    } else {
      RangeEndsStd(fromId, toId, rtrOnly, rtrToo, id);
    }
  }

  /** The filter for one 29-bit identifier passes that identifier and no other. */
  lemma {:induction false} SingleIdExt(id: bv32, rtrOnly: bool, rtrToo: bool, x: bv32)
    requires id < 0x2000_0000 && x < 0x2000_0000
    ensures Passes(ExtShift(x), CalculateAmr(true, id, id, rtrOnly, rtrToo),
                   CalculateAcr(true, id, id, rtrOnly, rtrToo), EXT_ID_FIELD)
            <==> x == id
  {
    AmrExtField(id, id, rtrOnly, rtrToo);
    AcrExtField(id, id, rtrOnly, rtrToo);
    ExactCore(ExtShift(id), ExtShift(x), CalculateAmr(true, id, id, rtrOnly, rtrToo),
              CalculateAcr(true, id, id, rtrOnly, rtrToo), EXT_ID_FIELD);
    ExtInjective(x, id);
  }

  /** The filter for one 11-bit identifier passes that identifier and no other. */
  lemma {:induction false} SingleIdStd(id: bv32, rtrOnly: bool, rtrToo: bool, x: bv32)
    requires id < 0x800 && x < 0x800
    ensures Passes(StdShift(x), CalculateAmr(false, id, id, rtrOnly, rtrToo),
                   CalculateAcr(false, id, id, rtrOnly, rtrToo), STD_ID_FIELD)
            <==> x == id
  {
    AmrStdField(id, id, rtrOnly, rtrToo);
    AcrStdField(id, id, rtrOnly, rtrToo);
    ExactCore(StdShift(id), StdShift(x), CalculateAmr(false, id, id, rtrOnly, rtrToo),
              CalculateAcr(false, id, id, rtrOnly, rtrToo), STD_ID_FIELD);
    StdInjective(x, id);
  }

  /** The filter computed for a single identifier passes that identifier and no other
      identifier of the same format. */
  lemma {:induction false} SingleIdFilterIsExact(isExtended: bool, id: bv32, rtrOnly: bool, rtrToo: bool,
                                                 x: bv32)
    requires IdFits(isExtended, id) && IdFits(isExtended, x)
    ensures AcceptsId(isExtended, CalculateAmr(isExtended, id, id, rtrOnly, rtrToo),
                      CalculateAcr(isExtended, id, id, rtrOnly, rtrToo), x)
            <==> x == id
  {
    if isExtended {
      SingleIdExt(id, rtrOnly, rtrToo, x);
    } else {
      SingleIdStd(id, rtrOnly, rtrToo, x);
    }
  }

  /** Calculated for identifier 1 to identifier 3, the filter rejects identifier 2, which
      lies inside the range: the two ends agree on bit 0, so bit 0 is fixed to 1. */
  lemma RangeInteriorRejectedAsWritten()
    ensures AcceptsId(true, CalculateAmr(true, 1, 3, false, true), CalculateAcr(true, 1, 3, false, true), 1)
    ensures AcceptsId(true, CalculateAmr(true, 1, 3, false, true), CalculateAcr(true, 1, 3, false, true), 3)
    ensures !AcceptsId(true, CalculateAmr(true, 1, 3, false, true), CalculateAcr(true, 1, 3, false, true), 2)
  {
  }

  // ---------------------------------------------------------------------
  // The results at full width
  // ---------------------------------------------------------------------

  /** `calculate_amr` on identifiers below 2^32 evaluated without loss: the result needs at
      most 32 + 21 bits, so at 64 bits it is the exact Python integer. */
  function WideAmr(isExtended: bool, fromId: bv64, toId: bv64, rtrOnly: bool, rtrToo: bool): bv64
    requires fromId < 0x1_0000_0000 && toId < 0x1_0000_0000
  {
    if isExtended then ((fromId ^ toId) << 3) | (if rtrToo && !rtrOnly then 0x7 else 0x3)
    else ((fromId ^ toId) << 21) | (if rtrToo && !rtrOnly then 0x1F_FFFF else 0xF_FFFF)
  }

  /** `calculate_acr` evaluated without loss, as `WideAmr`. */
  function WideAcr(isExtended: bool, fromId: bv64, toId: bv64, rtrOnly: bool, rtrToo: bool): bv64
    requires fromId < 0x1_0000_0000 && toId < 0x1_0000_0000
  {
    if isExtended then ((fromId & toId) << 3) | (if rtrOnly then 0x4 else 0x0)
    else ((fromId & toId) << 21) | (if rtrOnly then 0x10_0000 else 0x0)
  }

  /** For identifiers of the frame format's width both exact results fit the 32-bit
      registers, so storing them loses nothing. */
  lemma {:induction false} ResultsFitRegisters(isExtended: bool, fromId: bv64, toId: bv64, rtrOnly: bool,
                                               rtrToo: bool)
    requires if isExtended then fromId < 0x2000_0000 && toId < 0x2000_0000 else fromId < 0x800 && toId < 0x800
    ensures WideAmr(isExtended, fromId, toId, rtrOnly, rtrToo) < 0x1_0000_0000
    ensures WideAcr(isExtended, fromId, toId, rtrOnly, rtrToo) < 0x1_0000_0000
  {
    if isExtended {
      WideAmrExtFits(fromId, toId, rtrOnly, rtrToo);
      WideAcrExtFits(fromId, toId, rtrOnly, rtrToo);
    } else {
      WideAmrStdFits(fromId, toId, rtrOnly, rtrToo);
      WideAcrStdFits(fromId, toId, rtrOnly, rtrToo);
    }
  }

  lemma WideAmrExtFits(fromId: bv64, toId: bv64, rtrOnly: bool, rtrToo: bool)
    requires fromId < 0x2000_0000 && toId < 0x2000_0000
    ensures WideAmr(true, fromId, toId, rtrOnly, rtrToo) < 0x1_0000_0000
  {
    if rtrOnly {
    } else if rtrToo {
    } else {
    }
  }

  lemma WideAcrExtFits(fromId: bv64, toId: bv64, rtrOnly: bool, rtrToo: bool)
    requires fromId < 0x2000_0000 && toId < 0x2000_0000
    ensures WideAcr(true, fromId, toId, rtrOnly, rtrToo) < 0x1_0000_0000
  {
    if rtrOnly {
    } else {
    }
  }

  lemma WideAmrStdFits(fromId: bv64, toId: bv64, rtrOnly: bool, rtrToo: bool)
    requires fromId < 0x800 && toId < 0x800
    ensures WideAmr(false, fromId, toId, rtrOnly, rtrToo) < 0x1_0000_0000
  {
    if rtrOnly {
    } else if rtrToo {
    } else {
    }
  }

  lemma WideAcrStdFits(fromId: bv64, toId: bv64, rtrOnly: bool, rtrToo: bool)
    requires fromId < 0x800 && toId < 0x800
    ensures WideAcr(false, fromId, toId, rtrOnly, rtrToo) < 0x1_0000_0000
  {
    if rtrOnly {
    } else {
    }
  }

  /** On identifiers of the extended width, the exact results are the 32-bit registers
      `calculate_amr` and `calculate_acr` compute, widened: storing loses nothing. */
  lemma WideResultsAgreeExt(fromId: bv32, toId: bv32, rtrOnly: bool, rtrToo: bool)
    requires fromId < 0x2000_0000 && toId < 0x2000_0000
    ensures WideAmr(true, fromId as bv64, toId as bv64, rtrOnly, rtrToo)
            == CalculateAmr(true, fromId, toId, rtrOnly, rtrToo) as bv64
    ensures WideAcr(true, fromId as bv64, toId as bv64, rtrOnly, rtrToo)
            == CalculateAcr(true, fromId, toId, rtrOnly, rtrToo) as bv64
  {
  }

  /** The same for identifiers of the standard width. */
  lemma WideResultsAgreeStd(fromId: bv32, toId: bv32, rtrOnly: bool, rtrToo: bool)
    requires fromId < 0x800 && toId < 0x800
    ensures WideAmr(false, fromId as bv64, toId as bv64, rtrOnly, rtrToo)
            == CalculateAmr(false, fromId, toId, rtrOnly, rtrToo) as bv64
    ensures WideAcr(false, fromId as bv64, toId as bv64, rtrOnly, rtrToo)
            == CalculateAcr(false, fromId, toId, rtrOnly, rtrToo) as bv64
  {
  }

  // ---------------------------------------------------------------------
  // A range filter that passes the whole range
  // ---------------------------------------------------------------------

  /** Every bit at or below the highest set bit of `d`. */
  function Smear(d: bv32): bv32
  {
    var d1 := d | (d >> 1);
    var d2 := d1 | (d1 >> 2);
    var d3 := d2 | (d2 >> 4);
    var d4 := d3 | (d3 >> 8);
    d4 | (d4 >> 16)
  }

  /** The identifier bits a range filter releases: the highest bit in which the two ends
      differ and every bit below it. */
  function RangeMask(fromId: bv32, toId: bv32): bv32
  {
    Smear(fromId ^ toId)
  }

  /** The identifier bits a range filter fixes: those of the lower end outside the mask. */
  function RangeCode(fromId: bv32, toId: bv32): bv32
  {
    fromId & !RangeMask(fromId, toId)
  }

  /** The mask for a range as the calculator's description intends it. */
  function CalculateRangeAmr(isExtended: bool, fromId: bv32, toId: bv32, rtrOnly: bool, rtrToo: bool): bv32
  {
    MaskAmr(isExtended, RangeMask(fromId, toId), rtrOnly, rtrToo)
  }

  /** The code for a range as the calculator's description intends it: the bits the whole
      range shares. */
  function CalculateRangeAcr(isExtended: bool, fromId: bv32, toId: bv32, rtrOnly: bool, rtrToo: bool): bv32
  {
    CodeAcr(isExtended, RangeCode(fromId, toId), rtrOnly)
  }

  /** A mask register releasing the identifier bits `m`, with the frame-type bits of the calculator. */
  function MaskAmr(isExtended: bool, m: bv32, rtrOnly: bool, rtrToo: bool): bv32
  {
    if isExtended then (m << 3) | (if rtrToo && !rtrOnly then 0x7 else 0x3)
    else (m << 21) | (if rtrToo && !rtrOnly then 0x1F_FFFF else 0xF_FFFF)
  }

  /** A code register fixing the identifier bits `code`, with the frame-type bit of the calculator. */
  function CodeAcr(isExtended: bool, code: bv32, rtrOnly: bool): bv32
  {
    if isExtended then (code << 3) | (if rtrOnly then 0x4 else 0x0)
    else (code << 21) | (if rtrOnly then 0x10_0000 else 0x0)
  }

  /** `x` lies in the closed range from `lo` to `hi`. */
  predicate InRange(lo: bv32, hi: bv32, x: bv32)
  {
    lo <= x <= hi
  }

  /** `x` and `a` agree on every bit outside `m`. */
  predicate AgreeAbove(x: bv32, a: bv32, m: bv32)
  {
    x & !m == a & !m
  }

  /** Every identifier between the two ends agrees with the lower end on the bits above the
      highest bit in which the ends differ. */
  lemma InteriorCore(fromId: bv32, toId: bv32, x: bv32)
    requires InRange(fromId, toId, x)
    ensures AgreeAbove(x, fromId, RangeMask(fromId, toId))
  {
    InteriorBits(fromId, toId, x);
  }

  lemma InteriorBits(fromId: bv32, toId: bv32, x: bv32)
    requires fromId <= x <= toId
    ensures x & !Smear(fromId ^ toId) == fromId & !Smear(fromId ^ toId)
  {
  }

  /** The range filter passes every identifier from the first to the last. */
  lemma {:induction false} RangeFilterAcceptsRange(isExtended: bool, fromId: bv32, toId: bv32, rtrOnly: bool,
                                                   rtrToo: bool, x: bv32)
    requires InRange(fromId, toId, x)
    ensures AcceptsId(isExtended, CalculateRangeAmr(isExtended, fromId, toId, rtrOnly, rtrToo),
                      CalculateRangeAcr(isExtended, fromId, toId, rtrOnly, rtrToo), x)
  {
    InteriorCore(fromId, toId, x);
    MaskFilterAccepts(isExtended, fromId, RangeMask(fromId, toId), rtrOnly, rtrToo, x);
    assert CalculateRangeAmr(isExtended, fromId, toId, rtrOnly, rtrToo)
           == MaskAmr(isExtended, RangeMask(fromId, toId), rtrOnly, rtrToo);
    assert CalculateRangeAcr(isExtended, fromId, toId, rtrOnly, rtrToo)
           == CodeAcr(isExtended, fromId & !RangeMask(fromId, toId), rtrOnly);
  }

  /** A filter releasing the bits `m` and fixing the others to those of `a` passes every
      identifier that agrees with `a` outside `m`. */
  lemma {:induction false} MaskFilterAccepts(isExtended: bool, a: bv32, m: bv32, rtrOnly: bool, rtrToo: bool,
                                             x: bv32)
    requires AgreeAbove(x, a, m)
    ensures AcceptsId(isExtended, MaskAmr(isExtended, m, rtrOnly, rtrToo), CodeAcr(isExtended, a & !m, rtrOnly), x)
  {
    if isExtended {
      MaskFilterAcceptsExt(a, m, rtrOnly, rtrToo, x);
    } else {
      MaskFilterAcceptsStd(a, m, rtrOnly, rtrToo, x);
    }
  }

  lemma MaskFilterAcceptsExt(a: bv32, m: bv32, rtrOnly: bool, rtrToo: bool, x: bv32)
    requires AgreeAbove(x, a, m)
    ensures Passes(ExtShift(x), MaskAmr(true, m, rtrOnly, rtrToo), CodeAcr(true, a & !m, rtrOnly), EXT_ID_FIELD)
  {
    if rtrOnly {
    } else if rtrToo {
    } else {
    }
  }

  lemma MaskFilterAcceptsStd(a: bv32, m: bv32, rtrOnly: bool, rtrToo: bool, x: bv32)
    requires AgreeAbove(x, a, m)
    ensures Passes(StdShift(x), MaskAmr(false, m, rtrOnly, rtrToo), CodeAcr(false, a & !m, rtrOnly), STD_ID_FIELD)
  {
    if rtrOnly {
    } else if rtrToo {
    } else {
    }
  }

  /** For a single identifier the range mask is empty, like the calculator's mask. */
  lemma RangeMaskOfSingleId(id: bv32)
    ensures RangeMask(id, id) == id ^ id
  {
  }

  /** For a single identifier the range code is the identifier, like the calculator's code. */
  lemma RangeCodeOfSingleId(id: bv32)
    ensures RangeCode(id, id) == id & id
  {
  }

  /** For a single identifier the range filter is exactly the calculator's filter. */
  lemma RangeFilterAgreesOnSingleId(isExtended: bool, id: bv32, rtrOnly: bool, rtrToo: bool)
    ensures CalculateRangeAmr(isExtended, id, id, rtrOnly, rtrToo) == CalculateAmr(isExtended, id, id, rtrOnly, rtrToo)
    ensures CalculateRangeAcr(isExtended, id, id, rtrOnly, rtrToo) == CalculateAcr(isExtended, id, id, rtrOnly, rtrToo)
  {
    RangeMaskOfSingleId(id);
    RangeCodeOfSingleId(id);
    if isExtended {
      RangeFilterAgreesExt(id, rtrOnly, rtrToo);
    } else {
      RangeFilterAgreesStd(id, rtrOnly, rtrToo);
    }
  }

  lemma RangeFilterAgreesExt(id: bv32, rtrOnly: bool, rtrToo: bool)
    requires RangeMask(id, id) == id ^ id && RangeCode(id, id) == id & id
    ensures CalculateRangeAmr(true, id, id, rtrOnly, rtrToo) == CalculateAmr(true, id, id, rtrOnly, rtrToo)
    ensures CalculateRangeAcr(true, id, id, rtrOnly, rtrToo) == CalculateAcr(true, id, id, rtrOnly, rtrToo)
  {
  }

  lemma RangeFilterAgreesStd(id: bv32, rtrOnly: bool, rtrToo: bool)
    requires RangeMask(id, id) == id ^ id && RangeCode(id, id) == id & id
    ensures CalculateRangeAmr(false, id, id, rtrOnly, rtrToo) == CalculateAmr(false, id, id, rtrOnly, rtrToo)
    ensures CalculateRangeAcr(false, id, id, rtrOnly, rtrToo) == CalculateAcr(false, id, id, rtrOnly, rtrToo)
  {
  }

  /** The range filter's mask and code have no set bit in common either. */
  lemma RangeFilterDisjoint(isExtended: bool, fromId: bv32, toId: bv32, rtrOnly: bool, rtrToo: bool)
    ensures CalculateRangeAmr(isExtended, fromId, toId, rtrOnly, rtrToo)
            & CalculateRangeAcr(isExtended, fromId, toId, rtrOnly, rtrToo) == 0
  {
    if isExtended {
      RangeFilterDisjointExt(fromId, toId, rtrOnly, rtrToo);
    } else {
      RangeFilterDisjointStd(fromId, toId, rtrOnly, rtrToo);
    }
  }

  lemma RangeFilterDisjointExt(fromId: bv32, toId: bv32, rtrOnly: bool, rtrToo: bool)
    ensures CalculateRangeAmr(true, fromId, toId, rtrOnly, rtrToo)
            & CalculateRangeAcr(true, fromId, toId, rtrOnly, rtrToo) == 0
  {
  }

  lemma RangeFilterDisjointStd(fromId: bv32, toId: bv32, rtrOnly: bool, rtrToo: bool)
    ensures CalculateRangeAmr(false, fromId, toId, rtrOnly, rtrToo)
            & CalculateRangeAcr(false, fromId, toId, rtrOnly, rtrToo) == 0
  {
  }
}
