# systeccan: a Dafny model of the USB-CANmodul binding

`systeccan.py` is a Python ctypes binding for the vendor library of the SYSTEC
USB-CANmodul CAN interfaces. Most of it declares prototypes and structure layouts,
but a small part of it is self-contained logic. This project models that part:

- **Return codes** (`return_codes.dfy`). These are the byte codes most native calls
  return: every prototype declared with the `ReturnCode` result type, which includes
  each call the model issues. The model covers the `check_*` classification helpers
  and `check_result`, the error check attached to every such prototype.
  `check_result` logs a warning, raises `USBCanCmdError` for a firmware-command
  error, or raises `USBCanError` for a library error.
- **Capabilities** (`capabilities.dfy`).
  - The firmware version word is decoded into major, minor and release numbers.
  - The version comparison is lexicographic on (major, minor).
  - The product-code tests cover systec/G3/G4 and the feature support checks.
- **Acceptance filter** (`acceptance.dfy`). `calculate_amr` and `calculate_acr` compute
  the mask and code registers of the SJA1000-style filter from an identifier range.
  The model gives the filter a meaning (which identifiers and frame types pass) and
  proves what the calculator achieves. It also adds a corrected range filter, see
  "Findings".
- **Byte packing** (`structures.dfy`, `int_types.dfy`).
  - The bus-timing value `BTR` is split into BTR0/BTR1 and joined back.
  - The `InitCanParam` record and its getters.
  - The `CanMsg` constructor and its `data` getter.
  - The silent truncation ctypes applies when it stores a Python integer into a
    `BYTE`, `WORD` or `DWORD`.
- **Flag constants** (`flags.dfy`). The reset, cyclic-message and pending-message flags,
  with the composites built from them.
- **The `USBCanServer` life cycle** (`session.dfy`, `channel_table.dfy`, `native.dfy`).
  - Operations: construction, `init_hardware`, `init_can`, `set_baudrate`, `shutdown`,
    and the initialisation properties.
  - The server is an immutable record. Every operation returns an `Outcome`: the new
    server, the native calls it issued in order, and the exception it raised, if any.
  - The vendor library is a parameter `reply` that maps each call to its return code.
  - A call that raises stops the operation. The updates made before it stay, as they
    do in Python.
  - The per-channel dictionary is a sequence of entries in insertion order, which is
    the order `shutdown` visits them in.

`init_can` has no guard requiring the hardware to be initialised first, so the model
has none either. `init_can` also adds a dictionary key for any channel value it is
given, and so does the model.

## Model

| member | source | states |
|---|---|---|
| IntTypes.ToByte | systeccan.py:1237-1242 | storing an integer into a `BYTE` argument keeps it modulo 256 and leaves a byte-sized value unchanged |
| IntTypes.ToWord | systeccan.py:744-745 | storing into a `WORD` field keeps the value modulo 2^16 and leaves a 16-bit value unchanged |
| IntTypes.ToDword | systeccan.py:1209-1214 | storing into a `DWORD` keeps the value modulo 2^32 and leaves a 32-bit value unchanged |
| ReturnCodes.IsWarning | systeccan.py:1106-1114 | a code is a warning exactly when it lies in the band 0x80..0xFF |
| ReturnCodes.IsError | systeccan.py:1117-1125 | a code is an error exactly when it lies in the library band 1..0x3F or the command band 0x40..0x7F |
| ReturnCodes.IsErrorCmd | systeccan.py:1128-1136 | a code is a firmware-command error exactly when it lies in the band 0x40..0x7F |
| ReturnCodes.IsValidRxCanMsg | systeccan.py:1057-1065 | a read delivered messages exactly for success or a warning other than WARN_NODATA |
| ReturnCodes.IsTxOk | systeccan.py:1068-1081 | a write is accepted for exactly the codes a read is |
| ReturnCodes.IsTxSuccess | systeccan.py:1084-1092 | a write sent everything exactly for the success band |
| ReturnCodes.IsTxNotAll | systeccan.py:1095-1103 | "not all sent" is an accepted write that is not a full success, and a warning |
| ReturnCodes.NamedCodesDispatch | systeccan.py:206-282 | bad handle 0x06 and bad hardware type 0x12 raise `USBCanError`; 0x40, 0x49 and 0x4C raise `USBCanCmdError`; receive overrun 0x81 and busy 0x92 are logged and returned |
| ReturnCodes.PredicatesMatchBands | systeccan.py:184-193 | `check_warning`, `check_error_cmd` and `check_error` carve out exactly the documented bands: 0, 1..0x3F, 0x40..0x7F, 0x80..0xFF |
| ReturnCodes.ClassesPartition | systeccan.py:1106-1136 | every code is exactly one of success, error or warning, and a firmware-command error is an error |
| ReturnCodes.ReservedCodesAreWarnings | systeccan.py:192-193 | the reserved codes 0xC0 and above are classified as warnings and never as errors |
| ReturnCodes.CompletionPredicates | systeccan.py:1057-1103 | read/write completion holds exactly for 0 or codes strictly above 0x80, so WARN_NODATA is a warning that fails it; tx-success holds exactly for 0; tx-not-all implies tx-ok and not tx-success |
| ReturnCodes.CheckResult | systeccan.py:1139-1147 | the call completes exactly for success and warnings, with the code unchanged and a warning logged exactly for codes ≥ 0x80; otherwise it raises an exception carrying the code and the call, a command error exactly for 0x40..0x7F |
| ReturnCodes.CheckResultFollowsBands | systeccan.py:1139-1147 | per band: success and warnings pass through, the library band raises `USBCanError`, the command band raises `USBCanCmdError` |
| ReturnCodes.TxLimitIsNotAnError | systeccan.py:1095-1103 | the transmit-limit warning 0x91 counts as "not all sent" and completes without raising |
| Capabilities.MaskPidG3Value | systeccan.py:507-508 | the G3 product-id mask is 0xFFBF, which is the product-id mask without the reserved bit |
| Capabilities.MajorVersion | systeccan.py:1765-1773 | the major number agrees with the version word on bits 0-7 |
| Capabilities.MinorVersion | systeccan.py:1776-1784 | the minor number, put at bit 8, agrees with the version word on bits 8-15 |
| Capabilities.ReleaseVersion | systeccan.py:1787-1795 | the release number, put at bit 16, agrees with the version word on bits 16-31 |
| Capabilities.IsVersionEqualOrHigher | systeccan.py:1798-1809 | for a required minor number that is a byte, the test holds exactly when the version key `major * 256 + minor` reaches the required key |
| Capabilities.VersionFieldsRecompose | systeccan.py:1765-1795 | the major, minor and release fields put back in their places give the version word again, for every 32-bit word |
| Capabilities.VersionFieldsDecode | systeccan.py:1765-1795 | decoding the encoding of any (major, minor, release) returns each field |
| Capabilities.VersionOrderIsKeyOrder | systeccan.py:1798-1809 | the comparison agrees with comparing `major * 256 + minor` keys whenever the required minor number is a byte |
| Capabilities.VersionOrderReflexive | systeccan.py:1798-1809 | every version is at least its own (major, minor) |
| Capabilities.VersionOrderMonotone | systeccan.py:1798-1809 | lowering the requirement lexicographically keeps a passing version passing |
| Capabilities.VersionExample | systeccan.py:1798-1809 | firmware 2.16 meets 2.16 and 1.99 but not 2.17 or 3.0 |
| Capabilities.ProductId | systeccan.py:1812-1821 | the product id is the low 16 bits of the product code: at most 0xFFFF, no bit in the device-id half, and together with the device-id half it gives back the whole product code |
| Capabilities.IsSystec | systeccan.py:1812-1821 | a module is a systec module exactly when its product code modulo 2^16 is at least 0x1103 |
| Capabilities.G4Bit | systeccan.py:1824-1833 | `check_is_G4` returns 0 or 0x20, and 0x20 exactly when bit 5 of the product code is set |
| Capabilities.IsG4 | systeccan.py:1824-1833 | read as a truth value, `check_is_G4` holds exactly when bit 5 of the product code is set |
| Capabilities.IsG3 | systeccan.py:1836-1845 | a module is G3 exactly when its product code modulo 2^16 is at least the multiport id 0x1103 and bit 5, the G4 bit, is clear |
| Capabilities.SupportsCyclicMsg | systeccan.py:1848-1858 | cyclic messages are supported exactly by systec modules whose version key reaches 3.6 |
| Capabilities.SupportsTwoChannel | systeccan.py:1861-1870 | read as a truth value, two channels are reported exactly by systec modules with an odd product code |
| Capabilities.SupportsTermResistor | systeccan.py:1873-1882 | read as a truth value, the resistor check holds exactly for an odd product code |
| Capabilities.TermResistorBit | systeccan.py:1873-1882 | `check_support_term_resistor` returns 0 or 1, and 1 exactly for an odd product code |
| Capabilities.SupportsUserPort | systeccan.py:1885-1896 | the user port is offered exactly when the product code modulo 2^16 is neither the basic module 0x1104 nor the reserved id 0x1144 and the firmware is 2.16 or later |
| Capabilities.SupportsRbUserPort | systeccan.py:1899-1908 | read as a truth value, the user-port read-back check holds exactly for an odd product code |
| Capabilities.RbUserPortBit | systeccan.py:1899-1908 | `check_support_rb_user_port` returns 0 or 1, and 1 exactly for an odd product code |
| Capabilities.SupportsRbCanPort | systeccan.py:1911-1920 | read as a truth value, the CAN-port read-back check holds exactly for an odd product code |
| Capabilities.RbCanPortBit | systeccan.py:1911-1920 | `check_support_rb_can_port` returns 0 or 1, and 1 exactly for an odd product code |
| Capabilities.SupportsUcannet | systeccan.py:1923-1933 | USB-CANnetwork support holds exactly for systec modules whose version key reaches 3.8 |
| Capabilities.LowBitChecksAgree | systeccan.py:1861-1920 | the resistor and both read-back checks test the same bit, and on a systec module so does the two-channel check |
| Capabilities.G3AndG4Exclusive | systeccan.py:1824-1845 | no module is both G3 and G4 |
| Capabilities.UcannetImpliesCyclic | systeccan.py:1848-1933 | USB-CANnetwork support (firmware 3.8+) implies cyclic-message support (3.6+) |
| Capabilities.GatewaysAreNotSystec | systeccan.py:1812-1870 | GW-001 and GW-002 fail the systec, G3 and G4 tests and every systec-gated capability, whatever the other bits |
| Capabilities.BasicHasNoUserPort | systeccan.py:1885-1896 | a USB-CANmodul1 G3 never offers the user port, whatever its firmware |
| Capabilities.ProductTableGenerations | systeccan.py:1824-1845 | the G4 product codes test as systec G4, and the basic and advanced G3 codes test as G3 |
| Acceptance.RegisterLayoutExt | systeccan.py:1936-1965 | extended format: the mask's identifier field is where the shifted ends differ, the code's is what they share; the mask releases bits 0-1 always and the RTR bit only for `rtr_too` without `rtr_only`; the code requires the RTR bit only for `rtr_only` |
| Acceptance.RegisterLayoutStd | systeccan.py:1936-1965 | the same layout for standard identifiers: field in bits 21-31, RTR bit 20, bits 0-19 always released and never required |
| Acceptance.ExtInjective | systeccan.py:1936-1950 | a 29-bit identifier is recovered from its register field, so no identifier bit is lost in the shift |
| Acceptance.StdInjective | systeccan.py:1936-1950 | an 11-bit identifier is recovered from its register field |
| Acceptance.AmrAcrDisjoint | systeccan.py:1936-1965 | the computed mask and code never have a set bit in common |
| Acceptance.SingleIdAmr | systeccan.py:1936-1950 | for from = to the mask releases no identifier bit: it is exactly 0x7/0x3 (extended) or 0x1FFFFF/0xFFFFF (standard) |
| Acceptance.SingleIdAcr | systeccan.py:1952-1965 | for from = to the code is the identifier in its register field, plus the RTR bit only when remote frames alone are wanted |
| Acceptance.FrameTypeSelection | systeccan.py:1936-1965 | a frame type passes exactly as the flags select: remote frames alone with rtr_only, both with rtr_too, otherwise data frames |
| Acceptance.RangeEndsAccepted | systeccan.py:1936-1965 | the filter passes both ends of the range |
| Acceptance.SingleIdFilterIsExact | systeccan.py:1936-1965 | the filter for one identifier passes that identifier and no other identifier of the same format |
| Acceptance.ResultsFitRegisters | systeccan.py:1936-1965 | with 29-bit (extended) or 11-bit (standard) identifiers, both exact integer results fit the 32-bit registers |
| Acceptance.WideResultsAgreeExt | systeccan.py:1936-1965 | with 29-bit identifiers, the exact mask and code are the 32-bit `CalculateAmr` and `CalculateAcr` results, widened, so the registers keep the whole Python integer |
| Acceptance.WideResultsAgreeStd | systeccan.py:1936-1965 | the same with 11-bit identifiers in the standard layout |
| Acceptance.RangeInteriorRejectedAsWritten | systeccan.py:1936-1965 | as written, the filter for identifiers 1 to 3 passes 1 and 3 but rejects 2 |
| Acceptance.RangeFilterAcceptsRange | systeccan.py:1936-1965 | the corrected range filter passes every identifier from the first to the last |
| Acceptance.RangeFilterAgreesOnSingleId | systeccan.py:1936-1965 | for a single identifier the corrected filter equals the calculator's registers |
| Acceptance.RangeFilterDisjoint | systeccan.py:1936-1965 | the corrected mask and code never share a set bit |
| Structures.JoinBtr | systeccan.py:759 | the joined value has BTR0 as its high byte and BTR1 as its low byte |
| Structures.BtrRoundTrip | systeccan.py:748-762 | splitting any integer into BTR0/BTR1 and joining the bytes again gives its low 16 bits |
| Structures.BtrRoundTripWord | systeccan.py:748-762 | for a 16-bit BTR the split and join is lossless |
| Structures.SplitJoinBtr | systeccan.py:759-762 | joining two register bytes and splitting again returns the two bytes |
| Structures.MakeInitCanParam | systeccan.py:748-750 | the record's `BTR` getter gives the argument modulo 2^16, and every argument that fits its field (mode, OCR, AMR, ACR, baud rate, both buffer depths) is stored unchanged |
| Structures.BufferEntriesRoundTrip | systeccan.py:776-786 | the receive getter and the intended transmit getter return the depths that were passed in |
| Structures.TxBufferEntriesAsWrittenReadsRx | systeccan.py:782-786 | as written, the transmit getter returns the receive depth, so it misreports whenever the two differ |
| Structures.TruncateBytes | systeccan.py:657-658 | one byte per data element, congruent to it modulo 256, and equal to it when it already fits a byte |
| Structures.MakeCanMsg | systeccan.py:657-673 | construction succeeds exactly for at most 8 data bytes. On success, DLC is the data length, the time stamp is 0, `data` returns the stored bytes, and the unused payload is zero. Otherwise ctypes' `IndexError` |
| Structures.CanMsgDataRoundTrip | systeccan.py:657-673 | a message built from at most eight byte values returns the same bytes from `data` |
| Flags.ResetOnly | systeccan.py:475-496 | a reset-only word shares no bit with the excluded flags and, together with them, covers the low 16 bits |
| Flags.ResetBufferGroups | systeccan.py:461-473 | the transmit buffers (the literal 0x40 included) are 0xF0, the receive buffers 0xF00, and the two are disjoint; all buffers are 0xFF0, both counters 0xC |
| Flags.ResetOnlyKeeps | systeccan.py:475-496 | a reset-only word resets a single part exactly when the excluded flags do not name it |
| Flags.ResetOnlyAllBuff | systeccan.py:487-494 | resetting only all buffers is the reset-only word of all buffers and counters, 0xF003; the receive and transmit words are 0xF0F7 and 0xFF0B |
| Flags.ResetOnlyRxBuffGw002 | systeccan.py:487-491 | the GW-002 receive-only word is the receive-only word with the firmware transmit-buffer bit also excluded, 0xF077 |
| Flags.LockIsBit | systeccan.py:571-601 | lock flag i is bit i |
| Flags.LocksFillLowHalf | systeccan.py:563-601 | the sixteen lock flags fill exactly the low 16 bits and share none with the start, sequential and no-echo flags |
| Flags.PendingGroups | systeccan.py:613-631 | receive flags are 0x07, transmit flags 0x70, all 0x77, and the two groups are disjoint |
| ChannelTable.IndexOf | systeccan.py:1353-1356 | the first position holding the channel, or -1 exactly when the dictionary has no such key |
| ChannelTable.Lookup | systeccan.py:1373-1390 | subscription is missing exactly for an absent key, and otherwise returns the flag of an entry with that key |
| ChannelTable.Get | systeccan.py:1438 | `get(channel, False)` is true exactly when the key is present with flag true |
| ChannelTable.Store | systeccan.py:1441 | assignment keeps the length for an existing key, appends for a new key, and never reorders keys |
| ChannelTable.StoreLookup | systeccan.py:1441 | after an assignment the key reads the stored flag, every other key reads as before, and the keys stay pairwise different |
| Session.Raised | systeccan.py:1139-1147 | a native call raises exactly when its code is neither success nor a warning, and the exception carries the code and the call |
| Session.Create | systeccan.py:1349-1361 | a new server has handle 0xFF, both flags false, channels 0 and 1 present and false; it issues the connect-control call and raises on its failure |
| Session.IsCan0Initialized | systeccan.py:1373-1380 | the flag stored under channel 0 |
| Session.IsCan1Initialized | systeccan.py:1383-1390 | the flag stored under channel 1 |
| Session.InitHardware | systeccan.py:1406-1419 | no native call when the hardware is already initialised. Otherwise one call, by device number or by serial. The handle the library writes is kept even on a raise, and the flag is set exactly when the call does not raise |
| Session.InitHardwareDefaultDevice | systeccan.py:1406-1416 | with no serial and the default device number, the call asks for any module (device number 255) |
| Session.InitParamDefaults | systeccan.py:1421-1439 | with every default, the record carries BTR 0x0014, baud rate 0 (use BTR0/BTR1), accept-all mask and code, normal mode, OCR 0x1A and 4096 entries each way |
| Session.InitCan | systeccan.py:1421-1441 | no native call when the channel reads as initialised (a missing key reads as not). Otherwise one call with the record built from the arguments. A raise leaves the server unchanged; the handle and hardware flag are never touched |
| Session.InitCanMarksChannel | systeccan.py:1438-1441 | after a successful `init_can` the channel reads initialised, every other channel reads as before, and the dictionary stays well formed |
| Session.SetBaudrate | systeccan.py:1475-1485 | one call whose two register bytes join to BTR modulo 2^16; the server is unchanged |
| Session.DeinitEach | systeccan.py:1642-1646 | the loop keeps every key in place. Without a raise it issues exactly the reference calls for the selected channels, in dictionary order, and clears exactly those channels |
| Session.FirstRaise | systeccan.py:1642-1646 | reference: the first position whose entry is selected and whose deinitialisation raises, or the length when there is none |
| Session.DeinitEachRaisesIffSomeCallRaises | systeccan.py:1642-1646 | the loop raises exactly when some selected entry's call raises |
| Session.DeinitEachStopsAtFirstRaise | systeccan.py:1642-1646 | entries before the first raising one are cleared exactly when selected; that entry and every later one keep their flag |
| Session.DeinitEachRaisePrefix | systeccan.py:1642-1646 | a loop that raised issued a non-empty beginning of the reference calls |
| Session.DeinitEachRaiseLast | systeccan.py:1642-1646 | a loop that raised ended with the call whose code raised |
| Session.NothingSelectedIsNoop | systeccan.py:1642-1646 | with no channel selected the loop issues nothing and changes nothing |
| Session.Shutdown | systeccan.py:1633-1652 | keys and the unused flag are kept, and in every case a channel is cleared exactly when it is selected and lies before the first raising entry. Without a raise: the calls are the selected channels' then, if asked and initialised, the hardware's; shutting the hardware down clears its flag and invalidates the handle. On a raise, without `shutdown_hardware`, or with the hardware not initialised, handle and hardware flag are untouched, so a handle left by a failed `init_hardware` is neither released nor reset |
| Session.ShutdownClearsSelected | systeccan.py:1642-1646 | after a shutdown without a raise, exactly the selected channels read as not initialised and the rest are unchanged |
| Session.ShutdownHardwareClearsAll | systeccan.py:1642-1652 | a hardware shutdown without a raise leaves every channel and the hardware uninitialised |
| Session.ShutdownIdempotent | systeccan.py:1633-1652 | repeating a shutdown that did not raise issues no native call and changes nothing, whatever the library would answer |
| Session.ShutdownPreservesValid | systeccan.py:1642-1646 | `shutdown` keeps the dictionary's keys pairwise different, with both channel keys present |
| Session.OperationsPreserveValid | systeccan.py:1353-1356 | every operation keeps both channel keys and pairwise different keys, so the channel 0/1 getters never meet a missing key |
| Session.IsInitializedAsWrittenStaysFalse | systeccan.py:1349-1370 | as written, a fresh server whose hardware initialisation succeeded still reports `is_initialized` false |
| Session.IsInitializedFollowsHardware | systeccan.py:1363-1370 | the intended flag is true after a successful `init_hardware` and false after a hardware shutdown without a raise |

## Left out

- Loading the DLL, the platform check and the ctypes prototypes. Each native function
  appears only as a `NativeCall` value, and its return code comes from the `reply`
  parameter. The handle `init_hardware` receives by reference is the
  parameter `handleOut`.
- Structure layout, `_pack_` and the leading size fields, which ctypes handles.
- Callbacks: the event and connect-control callbacks, their references, and the
  no-op hooks. They run on native threads.
- `enumerate_hardware` and its class-level result list, which a callback fills.
- Pass-through calls whose results the native side fills in. These are the bulk
  read/write calls, cyclic messages, `set_acceptance`, `reset_can`, status, count and
  pending queries, error counters, and the hardware-info and version getters. Only
  their flag and code constants are modelled.
- `set_tx_timeout`, which converts float seconds.
- The message string tables, exception formatting and logging. A logged warning is
  the `warningLogged` field.
- The `CanMsg.data` setter, which calls the array instead of assigning to it.
- Session.Create: the guard around the connect-control installation tests a class
  attribute that is never assigned. So every construction issues the call, and no
  once-per-process behaviour is modelled.
- Session.IsCan0Initialized: it requires both channel keys to be present, so
  Python's `KeyError` path is not modelled. Session.OperationsPreserveValid shows no
  reachable server lacks them.
- Session.IsCan1Initialized: same as channel 0.
- Acceptance.CalculateAmr: identifiers and results are 32-bit words. That is the
  width of the registers that store them, not Python's unbounded integers.
  Acceptance.ResultsFitRegisters shows the exact results fit 32 bits for identifiers
  of the format's width, and Acceptance.WideResultsAgreeExt and
  Acceptance.WideResultsAgreeStd show the 32-bit results equal them there. Its register layout is stated by Acceptance.RegisterLayoutExt and
  Acceptance.RegisterLayoutStd rather than by its own contract.
- Acceptance.CalculateAcr: same width as Acceptance.CalculateAmr.
- Capabilities.IsVersionEqualOrHigher: the version is the 32-bit `DWORD` it is read
  from. The required major and minor numbers are unbounded integers.
- Calls outside the return-code scheme: four prototypes have no `ReturnCode` result
  and no error check, so their results never reach `check_result`.
  `UcanSetDebugMode` returns a `BOOL`, `UcanGetVersionEx` and `UcanGetFwVersion`
  return a version `DWORD`, and `UcanEnumerateHardware` returns a device count. None of them is modelled.
- Session.Replies: the library's answers are a function of the call, so two
  identical calls within one operation get the same code. Channel keys that agree
  modulo 256 (0 and 256, say) both become the same `DeinitCanEx` call, and a real
  library could answer the second one differently.
- Session.Shutdown: after a raise, its contract gives the state (channel flags,
  handle, hardware flag) but not the list of calls. The calls made before the raise
  are described by Session.DeinitEachRaisePrefix and Session.DeinitEachRaiseLast.
- Session.DeinitEach: its own contract covers the loop without a raise. The state
  after a raise is stated by Session.DeinitEachRaisesIffSomeCallRaises and
  Session.DeinitEachStopsAtFirstRaise.
- Capabilities.SupportsTwoChannel: only its truth value is modelled. The source
  returns `False` for a non-systec module and otherwise the masked bit, 0 or 1.
- Capabilities.IsG4: a truth value over Capabilities.G4Bit, which models the integer
  `check_is_G4` returns; the same holds for the resistor and read-back predicates over
  their bit functions.

## Findings

| source | as written | input that shows it | evidently intended | confidence | as-written member | corrected member |
|---|---|---|---|---|---|---|
| systeccan.py:782-786 | the `tx_buffer_entries` setter is declared with `@rx_buffer_entries.setter`, so the name `tx_buffer_entries` becomes a copy of the receive property and its getter reads `m_wNrOfRxBufferEntries` | `InitCanParam(..., rx_buffer_entries=10, tx_buffer_entries=20).tx_buffer_entries` gives 10 | the getter reads the transmit depth, 20 | high, not executed | Structures.TxBufferEntriesAsWrittenReadsRx | Structures.BufferEntriesRoundTrip |
| systeccan.py:1936-1965 | the mask releases only the bits where the two ends differ and the code fixes the rest, so identifiers between the ends that differ from them elsewhere are rejected | extended filter for `from_id=1, to_id=3`: identifier 2 is rejected | every identifier from `from_id` to `to_id` is received, as the parameters' description says | medium, not executed | Acceptance.RangeInteriorRejectedAsWritten | Acceptance.RangeFilterAcceptsRange |
| systeccan.py:1349-1370 | `_is_initialized` is assigned only in `__init__`, so `is_initialized` is always false | `USBCanServer()` followed by a successful `init_hardware()`; `is_initialized` stays false | the property reports whether the hardware interface is initialised | high, not executed | Session.IsInitializedAsWrittenStaysFalse | Session.IsInitializedFollowsHardware |
