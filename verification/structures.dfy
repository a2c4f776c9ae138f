/**
  The byte-level records exchanged with the vendor library: the split of the
  16-bit bus-timing value into the BTR0/BTR1 register pair, the channel
  initialisation record, and the CAN message record with its 8-byte payload.
 */
module Structures {
  import opened Wrappers
  import opened IntTypes

  // ---------------------------------------------------------------------
  // BTR0/BTR1: the legacy bus-timing value, BTR0 as high byte, BTR1 as low byte
  // ---------------------------------------------------------------------

  /** BTR0 as stored by `BTR >> 8` into a `c_ubyte` field or argument.
      Dafny's `/` by a positive divisor floors, exactly like Python's `>>`. */
  function Btr0(btr: int): Byte
  {
    ToByte(btr / 0x100)
  }

  /** BTR1 as stored by `BTR` into a `c_ubyte` field or argument. */
  function Btr1(btr: int): Byte
  {
    ToByte(btr)
  }

  /** The `BTR` getter `BTR0 << 8 | BTR1`; BTR1 < 256 makes the `|` an addition. */
  function JoinBtr(btr0: Byte, btr1: Byte): (btr: Word)
    ensures btr / 0x100 == btr0
    ensures btr % 0x100 == btr1
  {
    btr0 * 0x100 + btr1
  }

  /** Splitting any integer into BTR0/BTR1 and joining the bytes again gives its low 16 bits. */
  lemma {:induction false} BtrRoundTrip(btr: int)
    ensures JoinBtr(Btr0(btr), Btr1(btr)) == btr % 0x1_0000
  {
    var q, r := btr / 0x100, btr % 0x100;
    var k, a := q / 0x100, q % 0x100;
    assert btr == q * 0x100 + r;
    assert q == k * 0x100 + a;
    assert btr == k * 0x1_0000 + (a * 0x100 + r);
    assert 0 <= a * 0x100 + r < 0x1_0000;
  }

  /** For a 16-bit BTR the split is lossless. */
  lemma BtrRoundTripWord(btr: Word)
    ensures JoinBtr(Btr0(btr), Btr1(btr)) == btr
  {
    BtrRoundTrip(btr);
  }

  /** The other direction: joining two register bytes and splitting again returns them. */
  lemma SplitJoinBtr(btr0: Byte, btr1: Byte)
    ensures Btr0(JoinBtr(btr0, btr1)) == btr0
    ensures Btr1(JoinBtr(btr0, btr1)) == btr1
  {
  }

  // ---------------------------------------------------------------------
  // InitCanParam
  // ---------------------------------------------------------------------

  /** The channel initialisation record (the leading size field is ctypes layout and left out). */
  datatype InitCanParam = InitCanParam(
    mode: Byte,
    btr0: Byte,
    btr1: Byte,
    ocr: Byte,
    amr: Dword,
    acr: Dword,
    baudrate: Dword,
    rxBufferEntries: Word,
    txBufferEntries: Word)
  {
    /** The `BTR` property getter. */
    function Btr(): Word
    {
      JoinBtr(btr0, btr1)
    }

    /** The `rx_buffer_entries` property getter. */
    function RxBufferEntries(): Word
    {
      rxBufferEntries
    }

    /** The `tx_buffer_entries` property getter as the class defines it: its setter is
        declared with `@rx_buffer_entries.setter`, which rebinds the name to a copy of
        the receive-side property, so the getter reads the receive-buffer field. */
    function TxBufferEntriesAsWritten(): Word
    {
      rxBufferEntries
    }

    /** The `tx_buffer_entries` getter as its own definition intends. */
    function TxBufferEntries(): Word
    {
      txBufferEntries
    }
  }

  /** The constructor `InitCanParam(mode, BTR, OCR, AMR, ACR, baudrate, rx, tx)`:
      every argument is truncated to the width of its field. */
  function MakeInitCanParam(mode: int, btr: int, ocr: int, amr: int, acr: int, baudrate: int,
                            rxBufferEntries: int, txBufferEntries: int): (p: InitCanParam)
    ensures p.Btr() == btr % 0x1_0000
    ensures 0 <= mode < 0x100 ==> p.mode == mode
    ensures 0 <= ocr < 0x100 ==> p.ocr == ocr
    ensures 0 <= amr < 0x1_0000_0000 ==> p.amr == amr
    ensures 0 <= acr < 0x1_0000_0000 ==> p.acr == acr
    ensures 0 <= baudrate < 0x1_0000_0000 ==> p.baudrate == baudrate
    ensures 0 <= rxBufferEntries < 0x1_0000 ==> p.rxBufferEntries == rxBufferEntries
    ensures 0 <= txBufferEntries < 0x1_0000 ==> p.txBufferEntries == txBufferEntries
  {
    BtrRoundTrip(btr);
    InitCanParam(ToByte(mode), Btr0(btr), Btr1(btr), ToByte(ocr), ToDword(amr), ToDword(acr),
                 ToDword(baudrate), ToWord(rxBufferEntries), ToWord(txBufferEntries))
  }

  /** The receive getter and the intended transmit getter return what was passed in. */
  lemma BufferEntriesRoundTrip(rxBufferEntries: Word, txBufferEntries: Word, mode: int, btr: int,
                               ocr: int, amr: int, acr: int, baudrate: int)
    ensures MakeInitCanParam(mode, btr, ocr, amr, acr, baudrate, rxBufferEntries, txBufferEntries)
              .RxBufferEntries() == rxBufferEntries
    ensures MakeInitCanParam(mode, btr, ocr, amr, acr, baudrate, rxBufferEntries, txBufferEntries)
              .TxBufferEntries() == txBufferEntries
  {
  }

  /** The getter as written reports the receive depth: whenever the two depths differ
      (10 receive and 20 transmit entries, say) it misreports the transmit depth. */
  lemma TxBufferEntriesAsWrittenReadsRx(rxBufferEntries: Word, txBufferEntries: Word, mode: int,
                                        btr: int, ocr: int, amr: int, acr: int, baudrate: int)
    requires rxBufferEntries != txBufferEntries
    ensures MakeInitCanParam(mode, btr, ocr, amr, acr, baudrate, rxBufferEntries, txBufferEntries)
              .TxBufferEntriesAsWritten() == rxBufferEntries != txBufferEntries
  {
  }

  // ---------------------------------------------------------------------
  // CanMsg
  // ---------------------------------------------------------------------

  /** The fixed 8-byte data array of a CAN message. */
  type Payload = s: seq<Byte> | |s| == 8 witness [0, 0, 0, 0, 0, 0, 0, 0]

  const MSG_FF_STD: Byte := 0x00
  const MSG_FF_ECHO: Byte := 0x20
  const MSG_FF_RTR: Byte := 0x40
  const MSG_FF_EXT: Byte := 0x80

  datatype CanMsg = CanMsg(id: Dword, frameFormat: Byte, dlc: Byte, payload: Payload, time: Dword)
  {
    /** The `data` getter `m_bData[:m_bDLC]`; a slice past the array's end stops at byte 8. */
    function Data(): seq<Byte>
    {
      if dlc <= 8 then payload[..dlc] else payload[..]
    }
  }

  /** `(BYTE * 8)(*data)` with a ninth initialiser: ctypes raises `IndexError`
      ("invalid index") and carries no count. */
  datatype CtypesError = IndexError

  /** Each list element as stored into a `c_ubyte` array slot: the byte congruent to it
      modulo 256, which is the element itself when it already fits. */
  function TruncateBytes(data: seq<int>): (bytes: seq<Byte>)
    ensures |bytes| == |data|
    ensures forall i :: 0 <= i < |data| ==> (data[i] - bytes[i]) % 0x100 == 0
    ensures forall i :: 0 <= i < |data| && 0 <= data[i] < 0x100 ==> bytes[i] == data[i]
  {
    seq(|data|, i requires 0 <= i < |data| => ToByte(data[i]))
  }

  /** The `CanMsg(id, frame_format, data)` constructor: DLC is `len(data)`, the payload is
      `data` padded with zero bytes, the time stamp is 0. */
  function MakeCanMsg(id: int, frameFormat: int, data: seq<int>): (r: Result<CanMsg, CtypesError>)
    ensures r.Success? <==> |data| <= 8
    ensures r.Failure? ==> r.error == IndexError
    ensures r.Success? ==> r.value.dlc == |data| && r.value.time == 0
    ensures r.Success? ==> r.value.Data() == TruncateBytes(data)
    ensures r.Success? ==> forall i :: |data| <= i < 8 ==> r.value.payload[i] == 0
    ensures r.Success? && 0 <= id < 0x1_0000_0000 ==> r.value.id == id
    ensures r.Success? && 0 <= frameFormat < 0x100 ==> r.value.frameFormat == frameFormat
  {
    if |data| > 8 then
      Failure(IndexError)
    else
      var bytes := TruncateBytes(data);
      var payload: Payload := bytes + seq(8 - |data|, _ => 0);
      assert payload[..|data|] == bytes;
      Success(CanMsg(ToDword(id), ToByte(frameFormat), |data|, payload, 0))
  }

  /** A message built from at most eight byte values hands the same bytes back. */
  lemma CanMsgDataRoundTrip(id: int, frameFormat: int, data: seq<Byte>)
    requires |data| <= 8
    ensures MakeCanMsg(id, frameFormat, data).Success?
    ensures MakeCanMsg(id, frameFormat, data).value.Data() == data
  {
    var bytes := TruncateBytes(data);
    assert bytes == data;
  }
}
