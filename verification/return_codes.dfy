/**
  The one-byte return codes of the vendor library, the predicates that sort
  them into success, library error, firmware-command error and warning, the
  read/write completion predicates, and `check_result`, the post-check attached
  to every native call declared with the `ReturnCode` result type.
 */
module ReturnCodes {
  import opened Wrappers
  import opened IntTypes
  import opened Native

  // Band starts
  const SUCCESSFUL: Byte := 0x00
  const ERR: Byte := 0x01
  const ERRCMD: Byte := 0x40
  const WARNING: Byte := 0x80
  const RESERVED: Byte := 0xC0

  // Individual codes, one or two from each band (used in `NamedCodesDispatch`)
  const ERR_ILLHANDLE: Byte := 0x06
  const ERR_ILLHWTYPE: Byte := 0x12
  const ERRCMD_NOTEQU: Byte := 0x40
  const ERRCMD_ALREADYINIT: Byte := 0x49
  const ERRCMD_RUNNING: Byte := 0x4C
  const WARN_NODATA: Byte := 0x80
  const WARN_SYS_RXOVERRUN: Byte := 0x81
  const WARN_TXLIMIT: Byte := 0x91
  const WARN_BUSY: Byte := 0x92

  // ---------------------------------------------------------------------
  // Classification predicates, as the library's `check_*` helpers define them
  // ---------------------------------------------------------------------

  predicate IsWarning(code: Byte)
    ensures IsWarning(code) <==> BandOf(code) == WarningBand
  {
    code >= WARNING
  }

  predicate IsError(code: Byte)
    ensures IsError(code) <==> BandOf(code) == LibraryErrorBand || BandOf(code) == CommandErrorBand
  {
    code != SUCCESSFUL && code < WARNING
  }

  predicate IsErrorCmd(code: Byte)
    ensures IsErrorCmd(code) <==> BandOf(code) == CommandErrorBand
  {
    code >= ERRCMD && code < WARNING
  }

  /** A read returned a message: success, or a warning strictly above `WARNING`. */
  predicate IsValidRxCanMsg(code: Byte)
    ensures IsValidRxCanMsg(code) <==>
              BandOf(code) == SuccessBand || (BandOf(code) == WarningBand && code != WARN_NODATA)
  {
    code == SUCCESSFUL || code > WARNING
  }

  /** A write stored messages: same test as for reads. */
  predicate IsTxOk(code: Byte)
    ensures IsTxOk(code) <==> IsValidRxCanMsg(code)
  {
    code == SUCCESSFUL || code > WARNING
  }

  /** A write stored every message. */
  predicate IsTxSuccess(code: Byte)
    ensures IsTxSuccess(code) <==> BandOf(code) == SuccessBand
  {
    code == SUCCESSFUL
  }

  /** A write stopped at the library's transmit-buffer limit. */
  predicate IsTxNotAll(code: Byte)
    ensures IsTxNotAll(code) ==> IsTxOk(code) && !IsTxSuccess(code) && IsWarning(code)
  {
    code == WARN_TXLIMIT
  }

  // ---------------------------------------------------------------------
  // Reference classification by numeric band
  // ---------------------------------------------------------------------

  datatype Band = SuccessBand | LibraryErrorBand | CommandErrorBand | WarningBand

  /** The band of a code, read off the documented ranges 0, 1..0x3F, 0x40..0x7F, 0x80..0xFF. */
  function BandOf(code: Byte): Band
  {
    if code == 0 then SuccessBand
    else if code <= 0x3F then LibraryErrorBand
    else if code <= 0x7F then CommandErrorBand
    else WarningBand
  }

  /** The `check_*` predicates carve out exactly the documented bands. */
  lemma PredicatesMatchBands(code: Byte)
    ensures IsWarning(code) <==> BandOf(code) == WarningBand
    ensures IsErrorCmd(code) <==> BandOf(code) == CommandErrorBand
    ensures IsError(code) && !IsErrorCmd(code) <==> BandOf(code) == LibraryErrorBand
    ensures !IsWarning(code) && !IsError(code) <==> BandOf(code) == SuccessBand
  {
  }

  /** Every code is exactly one of success, error or warning, and firmware errors are errors. */
  lemma ClassesPartition(code: Byte)
    ensures IsWarning(code) ==> !IsError(code)
    ensures IsError(code) ==> !IsWarning(code)
    ensures code != SUCCESSFUL <==> IsWarning(code) || IsError(code)
    ensures IsErrorCmd(code) ==> IsError(code)
  {
  }

  /** The reserved range 0xC0 and above is classified as warnings. */
  lemma ReservedCodesAreWarnings(code: Byte)
    requires code >= RESERVED
    ensures IsWarning(code) && !IsError(code) && BandOf(code) == WarningBand
  {
  }

  /** The read/write completion predicates hold on success and on warnings strictly above
      0x80; `WARN_NODATA` (0x80) is a warning that fails them. */
  lemma CompletionPredicates(code: Byte)
    ensures IsValidRxCanMsg(code) <==> code == 0 || 0x80 < code
    ensures IsTxOk(code) <==> IsValidRxCanMsg(code)
    ensures IsTxOk(code) ==> !IsError(code)
    ensures IsTxSuccess(code) <==> code == 0
    ensures IsTxNotAll(code) ==> IsTxOk(code) && !IsTxSuccess(code) && IsWarning(code)
    ensures IsWarning(WARN_NODATA) && !IsValidRxCanMsg(WARN_NODATA) && !IsTxOk(WARN_NODATA)
  {
  }

  // ---------------------------------------------------------------------
  // check_result
  // ---------------------------------------------------------------------

  /** The two exception classes `check_result` raises; each carries the raw code and the
      call (function and arguments) that produced it. */
  datatype UsbCanException =
    | UsbCanError(result: Byte, call: NativeCall)
    | UsbCanCmdError(result: Byte, call: NativeCall)

  /** A call that did not raise: its code, and whether a warning was logged for it. */
  datatype Completed = Completed(result: Byte, warningLogged: bool)

  /** `check_result`: a warning is logged and returned, a firmware-command error raises
      `USBCanCmdError`, any other error raises `USBCanError`, success is returned. */
  function CheckResult(result: Byte, call: NativeCall): (r: Result<Completed, UsbCanException>)
    ensures r.Success? <==> result == 0 || 0x80 <= result
    ensures r.Success? ==> r.value.result == result && (r.value.warningLogged <==> 0x80 <= result)
    ensures r.Failure? ==> r.error.result == result && r.error.call == call
    ensures r.Failure? ==> (r.error.UsbCanCmdError? <==> 0x40 <= result)
  {
    if IsWarning(result) then
      Success(Completed(result, true))
    else if IsError(result) then
      if IsErrorCmd(result) then Failure(UsbCanCmdError(result, call))
      else Failure(UsbCanError(result, call))
    else
      Success(Completed(result, false))
  }

  /** The dispatcher agrees with the band classification: success and warnings pass through
      unchanged, a library-band code raises `USBCanError`, a command-band code `USBCanCmdError`. */
  lemma CheckResultFollowsBands(result: Byte, call: NativeCall)
    ensures BandOf(result) == SuccessBand ==> CheckResult(result, call) == Success(Completed(result, false))
    ensures BandOf(result) == WarningBand ==> CheckResult(result, call) == Success(Completed(result, true))
    ensures BandOf(result) == LibraryErrorBand ==> CheckResult(result, call) == Failure(UsbCanError(result, call))
    ensures BandOf(result) == CommandErrorBand ==> CheckResult(result, call) == Failure(UsbCanCmdError(result, call))
  {
  }

  /** A write whose code is the transmit-limit warning completes without raising. */
  lemma TxLimitIsNotAnError(call: NativeCall)
    ensures IsTxNotAll(WARN_TXLIMIT)
    ensures CheckResult(WARN_TXLIMIT, call) == Success(Completed(WARN_TXLIMIT, true))
  {
  }

  /** Named codes land where their band says: bad handle and bad hardware type raise
      `USBCanError`, the firmware's mismatch, already-initialised and running codes raise
      `USBCanCmdError`, receive overrun and busy are logged and returned. */
  lemma NamedCodesDispatch(call: NativeCall)
    ensures CheckResult(ERR_ILLHANDLE, call) == Failure(UsbCanError(ERR_ILLHANDLE, call))
    ensures CheckResult(ERR_ILLHWTYPE, call) == Failure(UsbCanError(ERR_ILLHWTYPE, call))
    ensures CheckResult(ERRCMD_NOTEQU, call) == Failure(UsbCanCmdError(ERRCMD_NOTEQU, call))
    ensures CheckResult(ERRCMD_ALREADYINIT, call) == Failure(UsbCanCmdError(ERRCMD_ALREADYINIT, call))
    ensures CheckResult(ERRCMD_RUNNING, call) == Failure(UsbCanCmdError(ERRCMD_RUNNING, call))
    ensures CheckResult(WARN_SYS_RXOVERRUN, call) == Success(Completed(WARN_SYS_RXOVERRUN, true))
    ensures CheckResult(WARN_BUSY, call) == Success(Completed(WARN_BUSY, true))
  {
  }
}
