/**
  The flag words passed to the reset, cyclic-message and pending-message
  calls: the primitive bits and the composites the library builds from them.
  Reset and cyclic flags are 32-bit `DWORD`s, pending flags one `BYTE`.
 */
module Flags {

  // ---------------------------------------------------------------------
  // Reset flags: a set bit means "do not reset this part"
  // ---------------------------------------------------------------------

  const RESET_ALL: bv32 := 0x0
  const RESET_NO_STATUS: bv32 := 0x1
  const RESET_NO_CANCTRL: bv32 := 0x2
  const RESET_NO_TXCOUNTER: bv32 := 0x4
  const RESET_NO_RXCOUNTER: bv32 := 0x8
  const RESET_NO_TXBUFFER_CH: bv32 := 0x10
  const RESET_NO_TXBUFFER_DLL: bv32 := 0x20
  const RESET_NO_TXBUFFER_FW: bv32 := 0x80
  const RESET_NO_RXBUFFER_CH: bv32 := 0x100
  const RESET_NO_RXBUFFER_DLL: bv32 := 0x200
  const RESET_NO_RXBUFFER_SYS: bv32 := 0x400
  const RESET_NO_RXBUFFER_FW: bv32 := 0x800
  const RESET_FIRMWARE: bv32 := 0xFFFF_FFFF

  /** The transmit buffer at kernel-driver level has no name of its own; the composite
      below spells it as the literal 0x40. */
  const RESET_NO_TXBUFFER_SYS: bv32 := 0x40

  const RESET_NO_COUNTER_ALL: bv32 := RESET_NO_TXCOUNTER | RESET_NO_RXCOUNTER
  const RESET_NO_TXBUFFER_COMM: bv32 := RESET_NO_TXBUFFER_DLL | RESET_NO_TXBUFFER_SYS | RESET_NO_TXBUFFER_FW
  const RESET_NO_RXBUFFER_COMM: bv32 := RESET_NO_RXBUFFER_DLL | RESET_NO_RXBUFFER_SYS | RESET_NO_RXBUFFER_FW
  const RESET_NO_TXBUFFER_ALL: bv32 := RESET_NO_TXBUFFER_CH | RESET_NO_TXBUFFER_COMM
  const RESET_NO_RXBUFFER_ALL: bv32 := RESET_NO_RXBUFFER_CH | RESET_NO_RXBUFFER_COMM
  const RESET_NO_BUFFER_COMM: bv32 := RESET_NO_TXBUFFER_COMM | RESET_NO_RXBUFFER_COMM
  const RESET_NO_BUFFER_ALL: bv32 := RESET_NO_TXBUFFER_ALL | RESET_NO_RXBUFFER_ALL

  /** `0xFFFF & ~flags`: within the 16 defined bits, reset exactly the parts `flags` names. */
  function ResetOnly(flags: bv32): (only: bv32)
    ensures only & flags == 0
    ensures only | (flags & 0xFFFF) == 0xFFFF
  {
    0xFFFF & !flags
  }

  const RESET_ONLY_STATUS: bv32 := ResetOnly(RESET_NO_STATUS)
  const RESET_ONLY_CANCTRL: bv32 := ResetOnly(RESET_NO_CANCTRL)
  const RESET_ONLY_TXBUFFER_FW: bv32 := ResetOnly(RESET_NO_TXBUFFER_FW)
  const RESET_ONLY_RXBUFFER_FW: bv32 := ResetOnly(RESET_NO_RXBUFFER_FW)
  const RESET_ONLY_RXCHANNEL_BUFF: bv32 := ResetOnly(RESET_NO_RXBUFFER_CH)
  const RESET_ONLY_TXCHANNEL_BUFF: bv32 := ResetOnly(RESET_NO_TXBUFFER_CH)
  const RESET_ONLY_RX_BUFF: bv32 := ResetOnly(RESET_NO_RXBUFFER_ALL | RESET_NO_RXCOUNTER)
  const RESET_ONLY_RX_BUFF_GW002: bv32 := ResetOnly(RESET_NO_RXBUFFER_ALL | RESET_NO_RXCOUNTER | RESET_NO_TXBUFFER_FW)
  const RESET_ONLY_TX_BUFF: bv32 := ResetOnly(RESET_NO_TXBUFFER_ALL | RESET_NO_TXCOUNTER)
  const RESET_ONLY_ALL_BUFF: bv32 := RESET_ONLY_RX_BUFF & RESET_ONLY_TX_BUFF
  const RESET_ONLY_ALL_COUNTER: bv32 := ResetOnly(RESET_NO_COUNTER_ALL)

  /** The transmit and receive buffer groups occupy the nibbles 0xF0 and 0xF00. */
  lemma ResetBufferGroups()
    ensures RESET_NO_TXBUFFER_COMM == 0xE0 && RESET_NO_RXBUFFER_COMM == 0xE00
    ensures RESET_NO_TXBUFFER_ALL == 0xF0 && RESET_NO_RXBUFFER_ALL == 0xF00
    ensures RESET_NO_TXBUFFER_ALL & RESET_NO_RXBUFFER_ALL == 0
    ensures RESET_NO_BUFFER_ALL == 0xFF0 && RESET_NO_COUNTER_ALL == 0xC
  {
  }

  /** A reset-only word keeps a single part (a one-bit flag among the low 16) exactly when
      the excluded flags do not name it. */
  lemma ResetOnlyKeeps(flags: bv32, part: bv32)
    requires part != 0 && part & (part - 1) == 0 && part <= 0x8000
    ensures ResetOnly(flags) & part != 0 <==> flags & part == 0
  {
  }

  /** Resetting only the buffers of both directions combines the two one-direction words:
      every buffer and both counters are reset, status and controller are not. */
  lemma ResetOnlyAllBuff()
    ensures RESET_ONLY_ALL_BUFF == ResetOnly(RESET_NO_BUFFER_ALL | RESET_NO_COUNTER_ALL)
    ensures RESET_ONLY_ALL_BUFF == 0xF003
    ensures RESET_ONLY_RX_BUFF == 0xF0F7 && RESET_ONLY_TX_BUFF == 0xFF0B
  {
  }

  /** The GW-002 variant additionally resets the firmware transmit buffer bit back out. */
  lemma ResetOnlyRxBuffGw002()
    ensures RESET_ONLY_RX_BUFF_GW002 == RESET_ONLY_RX_BUFF & !RESET_NO_TXBUFFER_FW
    ensures RESET_ONLY_RX_BUFF_GW002 == 0xF077
  {
  }

  // ---------------------------------------------------------------------
  // Cyclic-message flags
  // ---------------------------------------------------------------------

  const CYCLIC_FLAG_STOPP: bv32 := 0x0
  const CYCLIC_FLAG_START: bv32 := 0x8000_0000
  const CYCLIC_FLAG_SEQUMODE: bv32 := 0x4000_0000
  const CYCLIC_FLAG_NOECHO: bv32 := 0x1_0000

  // Lock flags: bit i holds back message i of the cyclic list
  const CYCLIC_FLAG_LOCK_0: bv32 := 0x1
  const CYCLIC_FLAG_LOCK_1: bv32 := 0x2
  const CYCLIC_FLAG_LOCK_2: bv32 := 0x4
  const CYCLIC_FLAG_LOCK_3: bv32 := 0x8
  const CYCLIC_FLAG_LOCK_4: bv32 := 0x10
  const CYCLIC_FLAG_LOCK_5: bv32 := 0x20
  const CYCLIC_FLAG_LOCK_6: bv32 := 0x40
  const CYCLIC_FLAG_LOCK_7: bv32 := 0x80
  const CYCLIC_FLAG_LOCK_8: bv32 := 0x100
  const CYCLIC_FLAG_LOCK_9: bv32 := 0x200
  const CYCLIC_FLAG_LOCK_10: bv32 := 0x400
  const CYCLIC_FLAG_LOCK_11: bv32 := 0x800
  const CYCLIC_FLAG_LOCK_12: bv32 := 0x1000
  const CYCLIC_FLAG_LOCK_13: bv32 := 0x2000
  const CYCLIC_FLAG_LOCK_14: bv32 := 0x4000
  const CYCLIC_FLAG_LOCK_15: bv32 := 0x8000

  /** The lock flags indexed by the message they hold back. */
  const CYCLIC_FLAG_LOCKS: seq<bv32> := [
    CYCLIC_FLAG_LOCK_0, CYCLIC_FLAG_LOCK_1, CYCLIC_FLAG_LOCK_2, CYCLIC_FLAG_LOCK_3,
    CYCLIC_FLAG_LOCK_4, CYCLIC_FLAG_LOCK_5, CYCLIC_FLAG_LOCK_6, CYCLIC_FLAG_LOCK_7,
    CYCLIC_FLAG_LOCK_8, CYCLIC_FLAG_LOCK_9, CYCLIC_FLAG_LOCK_10, CYCLIC_FLAG_LOCK_11,
    CYCLIC_FLAG_LOCK_12, CYCLIC_FLAG_LOCK_13, CYCLIC_FLAG_LOCK_14, CYCLIC_FLAG_LOCK_15]

  /** Lock `i` is bit `i`. */
  lemma LockIsBit(i: nat)
    requires i < 16
    ensures CYCLIC_FLAG_LOCKS[i] == 1 << i
  {
  }

  /** The sixteen lock flags fill exactly the low 16 bits, clear of the mode flags. */
  lemma LocksFillLowHalf()
    ensures CYCLIC_FLAG_LOCK_0 | CYCLIC_FLAG_LOCK_1 | CYCLIC_FLAG_LOCK_2 | CYCLIC_FLAG_LOCK_3
            | CYCLIC_FLAG_LOCK_4 | CYCLIC_FLAG_LOCK_5 | CYCLIC_FLAG_LOCK_6 | CYCLIC_FLAG_LOCK_7
            | CYCLIC_FLAG_LOCK_8 | CYCLIC_FLAG_LOCK_9 | CYCLIC_FLAG_LOCK_10 | CYCLIC_FLAG_LOCK_11
            | CYCLIC_FLAG_LOCK_12 | CYCLIC_FLAG_LOCK_13 | CYCLIC_FLAG_LOCK_14 | CYCLIC_FLAG_LOCK_15
            == 0xFFFF
    ensures (CYCLIC_FLAG_LOCK_0 | CYCLIC_FLAG_LOCK_1 | CYCLIC_FLAG_LOCK_2 | CYCLIC_FLAG_LOCK_3
            | CYCLIC_FLAG_LOCK_4 | CYCLIC_FLAG_LOCK_5 | CYCLIC_FLAG_LOCK_6 | CYCLIC_FLAG_LOCK_7
            | CYCLIC_FLAG_LOCK_8 | CYCLIC_FLAG_LOCK_9 | CYCLIC_FLAG_LOCK_10 | CYCLIC_FLAG_LOCK_11
            | CYCLIC_FLAG_LOCK_12 | CYCLIC_FLAG_LOCK_13 | CYCLIC_FLAG_LOCK_14 | CYCLIC_FLAG_LOCK_15)
            & (CYCLIC_FLAG_START | CYCLIC_FLAG_SEQUMODE | CYCLIC_FLAG_NOECHO) == 0
  {
  }

  // ---------------------------------------------------------------------
  // Pending-message flags
  // ---------------------------------------------------------------------

  const PENDING_FLAG_RX_DLL: bv8 := 0x1
  const PENDING_FLAG_RX_SYS: bv8 := 0x2
  const PENDING_FLAG_RX_FW: bv8 := 0x4
  const PENDING_FLAG_TX_DLL: bv8 := 0x10
  const PENDING_FLAG_TX_SYS: bv8 := 0x20
  const PENDING_FLAG_TX_FW: bv8 := 0x40
  const PENDING_FLAG_RX_ALL: bv8 := PENDING_FLAG_RX_DLL | PENDING_FLAG_RX_SYS | PENDING_FLAG_RX_FW
  const PENDING_FLAG_TX_ALL: bv8 := PENDING_FLAG_TX_DLL | PENDING_FLAG_TX_SYS | PENDING_FLAG_TX_FW
  const PENDING_FLAG_ALL: bv8 := PENDING_FLAG_RX_ALL | PENDING_FLAG_TX_ALL

  /** Receive flags sit in the low nibble, transmit flags in the high one. */
  lemma PendingGroups()
    ensures PENDING_FLAG_RX_ALL == 0x07 && PENDING_FLAG_TX_ALL == 0x70 && PENDING_FLAG_ALL == 0x77
    ensures PENDING_FLAG_RX_ALL & PENDING_FLAG_TX_ALL == 0
  {
  }
}
