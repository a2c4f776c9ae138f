/**
  The fixed-width unsigned integers of the native interface (ctypes `c_ubyte`,
  `WORD`, `DWORD`) and the silent truncation ctypes applies when a Python
  integer is stored into one of them.
 */
module IntTypes {

  type Byte = x: int | 0 <= x < 0x100
  type Word = x: int | 0 <= x < 0x1_0000
  type Dword = x: int | 0 <= x < 0x1_0000_0000

  /** Storing `x` into a `c_ubyte` keeps its low eight bits (two's complement for negatives). */
  function ToByte(x: int): (b: Byte)
    ensures (x - b) % 0x100 == 0
    ensures 0 <= x < 0x100 ==> b == x
  {
    x % 0x100
  }

  /** Storing `x` into a `WORD` keeps its low sixteen bits. */
  function ToWord(x: int): (w: Word)
    ensures (x - w) % 0x1_0000 == 0
    ensures 0 <= x < 0x1_0000 ==> w == x
  {
    x % 0x1_0000
  }

  /** Storing `x` into a `DWORD` keeps its low thirty-two bits. */
  function ToDword(x: int): (d: Dword)
    ensures (x - d) % 0x1_0000_0000 == 0
    ensures 0 <= x < 0x1_0000_0000 ==> d == x
  {
    x % 0x1_0000_0000
  }
}
