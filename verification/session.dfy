/**
  The `USBCanServer` life cycle: construction, hardware initialisation,
  channel initialisation, baud-rate change and shutdown. The server is an
  immutable record and every operation a function from a server to an
  `Outcome`. The vendor library is a parameter `reply` giving the return code
  of each call; every code passes through `check_result`, and a call that
  raises ends the operation with the updates made so far kept, as Python
  keeps them.
 */
module Session {
  import opened Wrappers
  import opened IntTypes
  import opened Structures
  import opened Native
  import opened ReturnCodes
  import opened ChannelTable

  const INVALID_HANDLE: Byte := 0xFF
  const ANY_MODULE: int := 255
  const CHANNEL_CH0: int := 0
  const CHANNEL_CH1: int := 1
  const CHANNEL_ALL: int := 254
  const DEFAULT_BUFFER_ENTRIES: int := 4096

  /** The return code the library produces for each call. */
  type Replies = NativeCall -> Byte

  datatype Server = Server(handle: Byte, isInitialized: bool, hwIsInitialized: bool, channels: seq<Entry>)

  /** The state an operation leaves (updates made before a raise included), the native
      calls it issued in order, and the exception it raised, if any. */
  datatype Outcome = Outcome(server: Server, calls: seq<NativeCall>, raised: Option<UsbCanException>)

  /** The dictionary keys stay pairwise different and both channels keep their keys. */
  predicate Valid(s: Server)
  {
    UniqueKeys(s.channels) && HasKey(s.channels, CHANNEL_CH0) && HasKey(s.channels, CHANNEL_CH1)
  }

  /** What `check_result` makes of the reply to `call`: the exception, or none. */
  function Raised(call: NativeCall, reply: Replies): (e: Option<UsbCanException>)
    ensures e.None? <==> reply(call) == SUCCESSFUL || IsWarning(reply(call))
    ensures e.Some? ==> e.value.result == reply(call) && e.value.call == call
  {
    match CheckResult(reply(call), call)
    case Success(_) => None
    case Failure(error) => Some(error)
  }

  // ---------------------------------------------------------------------
  // Construction and the state getters
  // ---------------------------------------------------------------------

  /** The state `__init__` sets up: invalid handle, nothing initialised, both channel keys. */
  const NEW_SERVER: Server :=
    Server(INVALID_HANDLE, false, false, [Entry(CHANNEL_CH0, false), Entry(CHANNEL_CH1, false)])

  /** `USBCanServer()`: installs the connect-control callback on every construction (the
      guard tests a class attribute that is never assigned) and raises if that fails. */
  function Create(reply: Replies): (o: Outcome)
    ensures o.calls == [InitHwConnectControlEx]
    ensures o.raised == Raised(InitHwConnectControlEx, reply)
    ensures Valid(o.server)
    ensures o.server.handle == INVALID_HANDLE && !o.server.hwIsInitialized && !o.server.isInitialized
    ensures Lookup(o.server.channels, CHANNEL_CH0) == Some(false)
    ensures Lookup(o.server.channels, CHANNEL_CH1) == Some(false)
  {
    UniqueLookup(NEW_SERVER.channels, 0);
    UniqueLookup(NEW_SERVER.channels, 1);
    Outcome(NEW_SERVER, [InitHwConnectControlEx], Raised(InitHwConnectControlEx, reply))
  }

  /** The `is_initialized` property as written: it reads a field only `__init__` assigns. */
  function IsInitializedAsWritten(s: Server): bool
  {
    s.isInitialized
  }

  /** The `is_initialized` property as its description intends: the hardware is initialised. */
  function IsInitialized(s: Server): bool
  {
    s.hwIsInitialized
  }

  /** `is_can0_initialized`: the flag stored under channel 0. */
  function IsCan0Initialized(s: Server): (flag: bool)
    requires Valid(s)
    ensures Lookup(s.channels, CHANNEL_CH0) == Some(flag)
  {
    Lookup(s.channels, CHANNEL_CH0).value
  }

  /** `is_can1_initialized`: the flag stored under channel 1. */
  function IsCan1Initialized(s: Server): (flag: bool)
    requires Valid(s)
    ensures Lookup(s.channels, CHANNEL_CH1) == Some(flag)
  {
    Lookup(s.channels, CHANNEL_CH1).value
  }

  // ---------------------------------------------------------------------
  // init_hardware
  // ---------------------------------------------------------------------

  /** `init_hardware(serial, device_number)`. `handleOut` is the handle the library writes
      by reference; it is stored whether or not the call then raises. */
  function InitHardware(s: Server, serial: Option<int>, deviceNumber: int, handleOut: Byte,
                        reply: Replies): (o: Outcome)
    ensures s.hwIsInitialized ==> o == Outcome(s, [], None)
    ensures !s.hwIsInitialized ==>
              o.calls == [if serial.None? then InitHardwareEx(ToByte(deviceNumber))
                          else InitHardwareEx2(ToDword(serial.value))]
    ensures !s.hwIsInitialized ==> o.raised == Raised(o.calls[0], reply)
    ensures !s.hwIsInitialized ==> o.server.handle == handleOut
    ensures !s.hwIsInitialized ==> (o.server.hwIsInitialized <==> o.raised.None?)
    ensures o.server.channels == s.channels && o.server.isInitialized == s.isInitialized
  {
    if s.hwIsInitialized then
      Outcome(s, [], None)
    else
      var call := if serial.None? then InitHardwareEx(ToByte(deviceNumber)) else InitHardwareEx2(ToDword(serial.value));
      var written := s.(handle := handleOut);
      match Raised(call, reply)
      case None => Outcome(written.(hwIsInitialized := true), [call], None)
      case Some(e) => Outcome(written, [call], Some(e))
  }

  /** Without a serial number and with the default device number, the hardware call asks
      for the first module found. */
  lemma InitHardwareDefaultDevice(s: Server, handleOut: Byte, reply: Replies)
    requires !s.hwIsInitialized
    ensures InitHardware(s, None, ANY_MODULE, handleOut, reply).calls == [InitHardwareEx(255)]
  {
  }

  // ---------------------------------------------------------------------
  // init_can and set_baudrate
  // ---------------------------------------------------------------------

  /** The keyword arguments of `init_can` after the channel. */
  datatype CanSettings = CanSettings(btr: int, baudrate: int, amr: int, acr: int, mode: int, ocr: int,
                                     rxBufferEntries: int, txBufferEntries: int)

  /** `init_can`'s defaults: 1 MBit/s through BTR0/BTR1, accept everything, normal mode,
      default output control, 4096 entries each way. */
  const DEFAULT_CAN_SETTINGS: CanSettings :=
    CanSettings(0x14, 0x0, 0xFFFF_FFFF, 0x0, 0, 0x1A, DEFAULT_BUFFER_ENTRIES, DEFAULT_BUFFER_ENTRIES)

  /** The initialisation record `init_can` builds from its arguments. */
  function InitParam(settings: CanSettings): InitCanParam
  {
    MakeInitCanParam(settings.mode, settings.btr, settings.ocr, settings.amr, settings.acr,
                     settings.baudrate, settings.rxBufferEntries, settings.txBufferEntries)
  }

  /** With every default, the record carries BTR 0x0014 (1 MBit/s), takes the baud rate from
      BTR0/BTR1, accepts every frame, and asks for 4096 entries each way. */
  lemma InitParamDefaults()
    ensures InitParam(DEFAULT_CAN_SETTINGS).Btr() == 0x14
    ensures InitParam(DEFAULT_CAN_SETTINGS).baudrate == 0
    ensures InitParam(DEFAULT_CAN_SETTINGS).amr == 0xFFFF_FFFF && InitParam(DEFAULT_CAN_SETTINGS).acr == 0
    ensures InitParam(DEFAULT_CAN_SETTINGS).mode == 0 && InitParam(DEFAULT_CAN_SETTINGS).ocr == 0x1A
    ensures InitParam(DEFAULT_CAN_SETTINGS).RxBufferEntries() == DEFAULT_BUFFER_ENTRIES
    ensures InitParam(DEFAULT_CAN_SETTINGS).TxBufferEntries() == DEFAULT_BUFFER_ENTRIES
  {
  }

  /** `init_can(channel, ...)`: a channel not yet marked initialised (missing keys read as
      not initialised) is initialised and, once the call returns, marked in the dictionary,
      which adds a key for a new channel value. No check of the hardware flag is made. */
  function InitCan(s: Server, channel: int, settings: CanSettings, reply: Replies): (o: Outcome)
    ensures Get(s.channels, channel) ==> o == Outcome(s, [], None)
    ensures !Get(s.channels, channel) ==> o.calls == [InitCanEx2(s.handle, ToByte(channel), InitParam(settings))]
    ensures !Get(s.channels, channel) ==> o.raised == Raised(o.calls[0], reply)
    ensures o.raised.Some? ==> o.server == s
    ensures o.server.handle == s.handle && o.server.hwIsInitialized == s.hwIsInitialized
    ensures o.server.isInitialized == s.isInitialized
  {
    if Get(s.channels, channel) then
      Outcome(s, [], None)
    else
      var call := InitCanEx2(s.handle, ToByte(channel), InitParam(settings));
      match Raised(call, reply)
      case None => Outcome(s.(channels := Store(s.channels, channel, true)), [call], None)
      case Some(e) => Outcome(s, [call], Some(e))
  }

  /** After `init_can` returns, its channel is marked initialised and every other channel
      reads as before; the dictionary keeps its shape. */
  lemma InitCanMarksChannel(s: Server, channel: int, settings: CanSettings, reply: Replies, other: int)
    requires Valid(s)
    requires InitCan(s, channel, settings, reply).raised.None?
    ensures Valid(InitCan(s, channel, settings, reply).server)
    ensures Lookup(InitCan(s, channel, settings, reply).server.channels, channel) == Some(true)
    ensures other != channel
            ==> Lookup(InitCan(s, channel, settings, reply).server.channels, other) == Lookup(s.channels, other)
  {
    if !Get(s.channels, channel) {
      StoreLookup(s.channels, channel, true, other);
      StoreLookup(s.channels, channel, true, CHANNEL_CH0);
      StoreLookup(s.channels, channel, true, CHANNEL_CH1);
      assert HasKey(Store(s.channels, channel, true), CHANNEL_CH0);
      assert HasKey(Store(s.channels, channel, true), CHANNEL_CH1);
    } else {
      assert Lookup(s.channels, channel) == Some(true);
    }
  }

  /** `set_baudrate(channel, BTR, baudrate)`: one call carrying the BTR split into its two
      register bytes; the server is unchanged. */
  function SetBaudrate(s: Server, channel: int, btr: int, baudrate: int, reply: Replies): (o: Outcome)
    ensures o.server == s && |o.calls| == 1 && o.calls[0].SetBaudrateEx?
    ensures o.calls[0].handle == s.handle && o.calls[0].channel == ToByte(channel)
    ensures JoinBtr(o.calls[0].btr0, o.calls[0].btr1) == btr % 0x1_0000
    ensures 0 <= baudrate < 0x1_0000_0000 ==> o.calls[0].baudrate == baudrate
    ensures o.raised == Raised(o.calls[0], reply)
  {
    BtrRoundTrip(btr);
    var call := SetBaudrateEx(s.handle, ToByte(channel), Btr0(btr), Btr1(btr), ToDword(baudrate));
    Outcome(s, [call], Raised(call, reply))
  }

  // ---------------------------------------------------------------------
  // shutdown
  // ---------------------------------------------------------------------

  /** `shutdown` deinitialises an entry when it is initialised and it is the target, the
      target is `CHANNEL_ALL`, or the hardware is shut down too. */
  predicate Selected(e: Entry, target: int, shutdownHardware: bool)
  {
    e.initialized && (e.channel == target || target == CHANNEL_ALL || shutdownHardware)
  }

  /** Reference: the deinitialisation calls for the selected entries, in dictionary order. */
  function SelectedCalls(handle: Byte, entries: seq<Entry>, target: int, shutdownHardware: bool): seq<NativeCall>
  {
    if |entries| == 0 then []
    else
      (if Selected(entries[0], target, shutdownHardware) then [DeinitCanEx(handle, ToByte(entries[0].channel))] else [])
      + SelectedCalls(handle, entries[1..], target, shutdownHardware)
  }

  /** A selected entry whose deinitialisation the library answers with an error code. */
  predicate RaisesAt(handle: Byte, e: Entry, target: int, shutdownHardware: bool, reply: Replies)
  {
    Selected(e, target, shutdownHardware) && Raised(DeinitCanEx(handle, ToByte(e.channel)), reply).Some?
  }

  /** Reference: the position of the first entry whose deinitialisation raises, or the
      length of `entries` when none does. */
  function FirstRaise(handle: Byte, entries: seq<Entry>, target: int, shutdownHardware: bool,
                      reply: Replies): (j: nat)
    ensures j <= |entries|
    ensures j < |entries| ==> RaisesAt(handle, entries[j], target, shutdownHardware, reply)
    ensures forall k :: 0 <= k < j ==> !RaisesAt(handle, entries[k], target, shutdownHardware, reply)
  {
    if |entries| == 0 then 0
    else if RaisesAt(handle, entries[0], target, shutdownHardware, reply) then 0
    else 1 + FirstRaise(handle, entries[1..], target, shutdownHardware, reply)
  }

  /** What the channel loop leaves: the dictionary, the calls issued, the exception. */
  datatype ChannelPass = ChannelPass(entries: seq<Entry>, calls: seq<NativeCall>, raised: Option<UsbCanException>)

  /** The channel loop of `shutdown` over `entries` in order: each selected entry is
      deinitialised and then cleared; a raising call stops the loop with its entry and all
      later ones left as they were. */
  function DeinitEach(handle: Byte, entries: seq<Entry>, target: int, shutdownHardware: bool,
                      reply: Replies): (p: ChannelPass)
    ensures |p.entries| == |entries|
    ensures forall k :: 0 <= k < |entries| ==> p.entries[k].channel == entries[k].channel
    ensures p.raised.None? ==> p.calls == SelectedCalls(handle, entries, target, shutdownHardware)
    ensures p.raised.None? ==> forall k :: 0 <= k < |entries| ==>
              p.entries[k].initialized == (entries[k].initialized && !Selected(entries[k], target, shutdownHardware))
  {
    if |entries| == 0 then
      ChannelPass(entries, [], None)
    else if Selected(entries[0], target, shutdownHardware) then
      var call := DeinitCanEx(handle, ToByte(entries[0].channel));
      match Raised(call, reply)
      case Some(e) => ChannelPass(entries, [call], Some(e))
      case None =>
        var rest := DeinitEach(handle, entries[1..], target, shutdownHardware, reply);
        ChannelPass([Entry(entries[0].channel, false)] + rest.entries, [call] + rest.calls, rest.raised)
    else
      var rest := DeinitEach(handle, entries[1..], target, shutdownHardware, reply);
      ChannelPass([entries[0]] + rest.entries, rest.calls, rest.raised)
  }

  /** `shutdown(channel, shutdown_hardware)`: the channel loop, then, when asked and the
      hardware is initialised, the hardware itself, after which the handle is invalid. */
  function Shutdown(s: Server, channel: int, shutdownHardware: bool, reply: Replies): (o: Outcome)
    ensures o.server.isInitialized == s.isInitialized
    ensures |o.server.channels| == |s.channels|
    ensures forall k :: 0 <= k < |s.channels| ==> o.server.channels[k].channel == s.channels[k].channel
    ensures o.raised.None? ==>
              o.calls == SelectedCalls(s.handle, s.channels, channel, shutdownHardware)
                         + (if s.hwIsInitialized && shutdownHardware then [DeinitHardware(s.handle)] else [])
    ensures o.raised.None? && shutdownHardware ==> !o.server.hwIsInitialized
    ensures o.raised.None? && shutdownHardware && s.hwIsInitialized ==> o.server.handle == INVALID_HANDLE
    ensures !(s.hwIsInitialized && shutdownHardware) ==> o.server.handle == s.handle && o.server.hwIsInitialized == s.hwIsInitialized
    ensures o.raised.Some? ==> o.server.handle == s.handle && o.server.hwIsInitialized == s.hwIsInitialized
    ensures forall k :: 0 <= k < |s.channels| ==>
              o.server.channels[k].initialized
              == (s.channels[k].initialized
                  && !(k < FirstRaise(s.handle, s.channels, channel, shutdownHardware, reply)
                       && Selected(s.channels[k], channel, shutdownHardware)))
  {
    var pass := DeinitEach(s.handle, s.channels, channel, shutdownHardware, reply);
    DeinitEachRaisesIffSomeCallRaises(s.handle, s.channels, channel, shutdownHardware, reply, pass);
    DeinitEachStopsAtFirstRaise(s.handle, s.channels, channel, shutdownHardware, reply, pass);
    var swept := s.(channels := pass.entries);
    if pass.raised.Some? then
      Outcome(swept, pass.calls, pass.raised)
    else if s.hwIsInitialized && shutdownHardware then
      var call := DeinitHardware(s.handle);
      match Raised(call, reply)
      case None => Outcome(swept.(hwIsInitialized := false, handle := INVALID_HANDLE), pass.calls + [call], None)
      case Some(e) => Outcome(swept, pass.calls + [call], Some(e))
    else
      Outcome(swept, pass.calls, None)
  }

  /** The channel loop raises exactly when some selected entry's call raises. */
  lemma {:induction false} DeinitEachRaisesIffSomeCallRaises(handle: Byte, entries: seq<Entry>, target: int,
                                                             shutdownHardware: bool, reply: Replies, p: ChannelPass)
    requires p == DeinitEach(handle, entries, target, shutdownHardware, reply)
    ensures p.raised.Some? <==> FirstRaise(handle, entries, target, shutdownHardware, reply) < |entries|
  {
    if |entries| > 0 && !RaisesAt(handle, entries[0], target, shutdownHardware, reply) {
      var rest := DeinitEach(handle, entries[1..], target, shutdownHardware, reply);
      DeinitEachRaisesIffSomeCallRaises(handle, entries[1..], target, shutdownHardware, reply, rest);
    }
  }

  /** The channel loop stops at the first raising entry: the entries before it are cleared
      when selected, that entry and every later one keep their flag. */
  lemma {:induction false} DeinitEachStopsAtFirstRaise(handle: Byte, entries: seq<Entry>, target: int,
                                                       shutdownHardware: bool, reply: Replies, p: ChannelPass)
    requires p == DeinitEach(handle, entries, target, shutdownHardware, reply)
    ensures forall k :: 0 <= k < |entries| ==>
              p.entries[k].initialized
              == (entries[k].initialized
                  && !(k < FirstRaise(handle, entries, target, shutdownHardware, reply)
                       && Selected(entries[k], target, shutdownHardware)))
  {
    if |entries| > 0 && !RaisesAt(handle, entries[0], target, shutdownHardware, reply) {
      var j := FirstRaise(handle, entries, target, shutdownHardware, reply);
      var rest := DeinitEach(handle, entries[1..], target, shutdownHardware, reply);
      DeinitEachStopsAtFirstRaise(handle, entries[1..], target, shutdownHardware, reply, rest);
      assert p.entries[1..] == rest.entries;
      forall k | 1 <= k < |entries|
        ensures p.entries[k].initialized
                == (entries[k].initialized && !(k < j && Selected(entries[k], target, shutdownHardware)))
      {
        assert p.entries[k] == rest.entries[k - 1];
        assert entries[k] == entries[1..][k - 1];
      }
    }
  }

  /** A channel loop that raised issued a beginning of the reference calls. */
  lemma {:induction false} DeinitEachRaisePrefix(handle: Byte, entries: seq<Entry>, target: int,
                                                 shutdownHardware: bool, reply: Replies, p: ChannelPass)
    requires p == DeinitEach(handle, entries, target, shutdownHardware, reply)
    requires p.raised.Some?
    ensures p.calls != [] && p.calls <= SelectedCalls(handle, entries, target, shutdownHardware)
  {
    var rest := DeinitEach(handle, entries[1..], target, shutdownHardware, reply);
    var tail := SelectedCalls(handle, entries[1..], target, shutdownHardware);
    if Selected(entries[0], target, shutdownHardware) {
      var call := DeinitCanEx(handle, ToByte(entries[0].channel));
      assert SelectedCalls(handle, entries, target, shutdownHardware) == [call] + tail;
      if Raised(call, reply).None? {
        DeinitEachRaisePrefix(handle, entries[1..], target, shutdownHardware, reply, rest);
      }
    } else {
      DeinitEachRaisePrefix(handle, entries[1..], target, shutdownHardware, reply, rest);
    }
  }

  /** A channel loop that raised ended with the call whose code raised. */
  lemma {:induction false} DeinitEachRaiseLast(handle: Byte, entries: seq<Entry>, target: int,
                                               shutdownHardware: bool, reply: Replies, p: ChannelPass)
    requires p == DeinitEach(handle, entries, target, shutdownHardware, reply)
    requires p.raised.Some?
    ensures p.calls != [] && p.raised == Raised(p.calls[|p.calls| - 1], reply)
  {
    var rest := DeinitEach(handle, entries[1..], target, shutdownHardware, reply);
    if Selected(entries[0], target, shutdownHardware) {
      var call := DeinitCanEx(handle, ToByte(entries[0].channel));
      if Raised(call, reply).None? {
        DeinitEachRaiseLast(handle, entries[1..], target, shutdownHardware, reply, rest);
        assert p.calls == [call] + rest.calls;
      }
    } else {
      DeinitEachRaiseLast(handle, entries[1..], target, shutdownHardware, reply, rest);
    }
  }

  /** With nothing selected the channel loop issues no call and changes nothing. */
  lemma {:induction false} NothingSelectedIsNoop(handle: Byte, entries: seq<Entry>, target: int,
                                                 shutdownHardware: bool, reply: Replies)
    requires forall k :: 0 <= k < |entries| ==> !Selected(entries[k], target, shutdownHardware)
    ensures DeinitEach(handle, entries, target, shutdownHardware, reply) == ChannelPass(entries, [], None)
  {
    if |entries| > 0 {
      NothingSelectedIsNoop(handle, entries[1..], target, shutdownHardware, reply);
      assert [entries[0]] + entries[1..] == entries;
    }
  }

  /** After a shutdown that did not raise, the channels it deinitialised read as not
      initialised, every other channel reads as before, and the keys are unchanged. */
  lemma ShutdownClearsSelected(s: Server, channel: int, shutdownHardware: bool, reply: Replies, k: nat)
    requires Shutdown(s, channel, shutdownHardware, reply).raised.None?
    requires k < |s.channels|
    ensures Shutdown(s, channel, shutdownHardware, reply).server.channels[k]
            == Entry(s.channels[k].channel, s.channels[k].initialized && !Selected(s.channels[k], channel, shutdownHardware))
  {
  }

  /** A shutdown of the hardware that did not raise leaves every channel and the hardware
      uninitialised. */
  lemma ShutdownHardwareClearsAll(s: Server, channel: int, reply: Replies)
    requires Shutdown(s, channel, true, reply).raised.None?
    ensures !IsInitialized(Shutdown(s, channel, true, reply).server)
    ensures forall k :: 0 <= k < |s.channels| ==> !Shutdown(s, channel, true, reply).server.channels[k].initialized
  {
    forall k | 0 <= k < |s.channels|
      ensures !Shutdown(s, channel, true, reply).server.channels[k].initialized
    {
      ShutdownClearsSelected(s, channel, true, reply, k);
    }
  }

  /** Repeating a shutdown that did not raise issues no native call and changes nothing,
      whatever the library would answer. */
  lemma ShutdownIdempotent(s: Server, channel: int, shutdownHardware: bool, reply: Replies, reply2: Replies)
    requires Shutdown(s, channel, shutdownHardware, reply).raised.None?
    ensures Shutdown(Shutdown(s, channel, shutdownHardware, reply).server, channel, shutdownHardware, reply2)
            == Outcome(Shutdown(s, channel, shutdownHardware, reply).server, [], None)
  {
    var t := Shutdown(s, channel, shutdownHardware, reply).server;
    forall k | 0 <= k < |t.channels|
      ensures !Selected(t.channels[k], channel, shutdownHardware)
    {
      ShutdownClearsSelected(s, channel, shutdownHardware, reply, k);
    }
    NothingSelectedIsNoop(t.handle, t.channels, channel, shutdownHardware, reply2);
    assert t.(channels := t.channels) == t;
  }

  // ---------------------------------------------------------------------
  // The initialisation flag
  // ---------------------------------------------------------------------

  /** As written, `is_initialized` never becomes true: a fresh server whose hardware
      initialisation succeeded still reports false. */
  lemma IsInitializedAsWrittenStaysFalse(reply: Replies, handleOut: Byte, deviceNumber: int)
    requires Create(reply).raised.None?
    requires reply(InitHardwareEx(ToByte(deviceNumber))) == SUCCESSFUL
    ensures InitHardware(Create(reply).server, None, deviceNumber, handleOut, reply).raised.None?
    ensures IsInitialized(InitHardware(Create(reply).server, None, deviceNumber, handleOut, reply).server)
    ensures !IsInitializedAsWritten(InitHardware(Create(reply).server, None, deviceNumber, handleOut, reply).server)
  {
  }

  /** Intended reading: the flag follows hardware initialisation and shutdown. */
  lemma IsInitializedFollowsHardware(s: Server, serial: Option<int>, deviceNumber: int, handleOut: Byte,
                                     reply: Replies, channel: int)
    ensures InitHardware(s, serial, deviceNumber, handleOut, reply).raised.None?
            ==> IsInitialized(InitHardware(s, serial, deviceNumber, handleOut, reply).server)
    ensures Shutdown(s, channel, true, reply).raised.None? ==> !IsInitialized(Shutdown(s, channel, true, reply).server)
  {
  }

  /** Every operation keeps the dictionary keys pairwise different and both channel keys
      present. */
  lemma OperationsPreserveValid(s: Server, serial: Option<int>, deviceNumber: int, handleOut: Byte,
                                channel: int, settings: CanSettings, btr: int, baudrate: int,
                                shutdownHardware: bool, reply: Replies)
    requires Valid(s)
    ensures Valid(InitHardware(s, serial, deviceNumber, handleOut, reply).server)
    ensures Valid(InitCan(s, channel, settings, reply).server)
    ensures Valid(SetBaudrate(s, channel, btr, baudrate, reply).server)
    ensures Valid(Shutdown(s, channel, shutdownHardware, reply).server)
  {
    if InitCan(s, channel, settings, reply).raised.None? {
      InitCanMarksChannel(s, channel, settings, reply, channel);
    }
    ShutdownPreservesValid(s, channel, shutdownHardware, reply);
  }

  /** The channel loop keeps the keys, so a valid server stays valid through `shutdown`. */
  lemma ShutdownPreservesValid(s: Server, channel: int, shutdownHardware: bool, reply: Replies)
    requires Valid(s)
    ensures Valid(Shutdown(s, channel, shutdownHardware, reply).server)
  {
    var t := Shutdown(s, channel, shutdownHardware, reply).server;
    assert UniqueKeys(t.channels) by {
      forall i, j | 0 <= i < j < |t.channels|
        ensures t.channels[i].channel != t.channels[j].channel
      {
        assert s.channels[i].channel != s.channels[j].channel;
      }
    }
    var a :| 0 <= a < |s.channels| && s.channels[a].channel == CHANNEL_CH0;
    var b :| 0 <= b < |s.channels| && s.channels[b].channel == CHANNEL_CH1;
    assert t.channels[a].channel == CHANNEL_CH0 && t.channels[b].channel == CHANNEL_CH1;
  }
}
