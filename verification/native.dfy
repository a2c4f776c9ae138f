/**
  The calls into the vendor library that the session state machine issues,
  each recorded with the arguments it was given. What the library does is
  not modelled: every call is answered by a return code supplied from outside.
  Arguments appear as ctypes converts them to the declared `BYTE`/`DWORD`
  parameter types, that is, truncated to their width.
 */
module Native {
  import opened IntTypes
  import opened Structures

  datatype NativeCall =
    | InitHwConnectControlEx
    | InitHardwareEx(deviceNumber: Byte)
    | InitHardwareEx2(serial: Dword)
    | InitCanEx2(handle: Byte, channel: Byte, param: InitCanParam)
    | SetBaudrateEx(handle: Byte, channel: Byte, btr0: Byte, btr1: Byte, baudrate: Dword)
    | DeinitCanEx(handle: Byte, channel: Byte)
    | DeinitHardware(handle: Byte)
}
