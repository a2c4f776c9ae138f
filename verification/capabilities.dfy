/**
  Firmware-version decoding and the capability tests the server class offers
  over a module's hardware information: generation (G3/G4), vendor (systec or
  the outdated GW-001/GW-002) and feature support. Version words and product
  codes are the 32-bit `DWORD` fields of `HardwareInfoEx`, so they are `bv32`.
 */
module Capabilities {
  import opened IntTypes

  /** `HardwareInfoEx` as returned by the hardware-info query (leading size field left out). */
  datatype HardwareInfoEx = HardwareInfoEx(
    handle: Byte,
    deviceNumber: Byte,
    serial: bv32,
    fwVersion: bv32,
    productCode: bv32,
    uniqueId: (bv32, bv32, bv32, bv32),
    flags: bv32)

  // Product-code bit fields and masks
  const PRODCODE_PID_TWO_CHA: bv32 := 0x1
  const PRODCODE_PID_TERM: bv32 := 0x1
  const PRODCODE_PID_RBUSER: bv32 := 0x1
  const PRODCODE_PID_RBCAN: bv32 := 0x1
  const PRODCODE_PID_G4: bv32 := 0x20
  const PRODCODE_PID_RESVD: bv32 := 0x40
  const PRODCODE_MASK_DID: bv32 := 0xFFFF_0000
  const PRODCODE_MASK_PID: bv32 := 0xFFFF
  const PRODCODE_MASK_PIDG3: bv32 := PRODCODE_MASK_PID & 0xFFFF_FFBF

  // Product codes
  const PRODCODE_PID_GW001: bv32 := 0x1100
  const PRODCODE_PID_GW002: bv32 := 0x1102
  const PRODCODE_PID_MULTIPORT: bv32 := 0x1103
  const PRODCODE_PID_BASIC: bv32 := 0x1104
  const PRODCODE_PID_ADVANCED: bv32 := 0x1105
  const PRODCODE_PID_USBCAN8: bv32 := 0x1107
  const PRODCODE_PID_USBCAN16: bv32 := 0x1109
  const PRODCODE_PID_RESERVED3: bv32 := 0x1110
  const PRODCODE_PID_ADVANCED_G4: bv32 := 0x1121
  const PRODCODE_PID_BASIC_G4: bv32 := 0x1122
  const PRODCODE_PID_RESERVED1: bv32 := 0x1144
  const PRODCODE_PID_RESERVED2: bv32 := 0x1145

  /** The G3 product-id mask is the product-id mask without the reserved bit 0x40. */
  lemma MaskPidG3Value()
    ensures PRODCODE_MASK_PIDG3 == 0xFFBF
    ensures PRODCODE_MASK_PIDG3 & PRODCODE_PID_RESVD == 0
  {
  }

  // ---------------------------------------------------------------------
  // Firmware version word: major in bits 0-7, minor in bits 8-15, release in bits 16-31.
  // The fields are returned at their own widths; comparisons are on their integer values.
  // ---------------------------------------------------------------------

  /** The major version: bits 0-7. */
  function MajorVersion(version: bv32): (major: bv8)
    ensures (version ^ (major as bv32)) & 0xFF == 0
  {
    (version & 0xFF) as bv8
  }

  /** The minor version: bits 8-15. */
  function MinorVersion(version: bv32): (minor: bv8)
    ensures (version ^ ((minor as bv32) << 8)) & 0xFF00 == 0
  {
    ((version & 0xFF00) >> 8) as bv8
  }

  /** The release number: bits 16-31. */
  function ReleaseVersion(version: bv32): (release: bv16)
    ensures (version ^ ((release as bv32) << 16)) & 0xFFFF_0000 == 0
  {
    ((version & 0xFFFF_0000) >> 16) as bv16
  }

  /** The three fields put back in their places give the version word again. */
  lemma VersionFieldsRecompose(version: bv32)
    ensures ((ReleaseVersion(version) as bv32) << 16) | ((MinorVersion(version) as bv32) << 8)
            | (MajorVersion(version) as bv32) == version
  {
  }

  /** Encoding (major, minor, release) and decoding again returns the fields. */
  lemma VersionFieldsDecode(major: bv8, minor: bv8, release: bv16)
    ensures MajorVersion(((release as bv32) << 16) | ((minor as bv32) << 8) | (major as bv32)) == major
    ensures MinorVersion(((release as bv32) << 16) | ((minor as bv32) << 8) | (major as bv32)) == minor
    ensures ReleaseVersion(((release as bv32) << 16) | ((minor as bv32) << 8) | (major as bv32)) == release
  {
  }

  /** `check_version_is_equal_or_higher`: major strictly greater, or major equal and minor
      at least the required one; the required numbers are Python integers. */
  predicate IsVersionEqualOrHigher(version: bv32, cmpMajor: int, cmpMinor: int)
    ensures 0 <= cmpMinor < 0x100 ==>
              (IsVersionEqualOrHigher(version, cmpMajor, cmpMinor)
               <==> VersionKey(version) >= cmpMajor * 0x100 + cmpMinor)
  {
    MajorVersion(version) as int > cmpMajor
    || (MajorVersion(version) as int == cmpMajor && MinorVersion(version) as int >= cmpMinor)
  }

  /** The key `major * 256 + minor` of a version word. */
  function VersionKey(version: bv32): int
  {
    MajorVersion(version) as int * 0x100 + MinorVersion(version) as int
  }

  /** The comparison is the ordering of version keys whenever the required minor number
      fits in a byte. */
  lemma VersionOrderIsKeyOrder(version: bv32, cmpMajor: int, cmpMinor: int)
    requires 0 <= cmpMinor < 0x100
    ensures IsVersionEqualOrHigher(version, cmpMajor, cmpMinor)
            <==> VersionKey(version) >= cmpMajor * 0x100 + cmpMinor
  {
  }

  /** Every version is at least its own (major, minor). */
  lemma VersionOrderReflexive(version: bv32)
    ensures IsVersionEqualOrHigher(version, MajorVersion(version) as int, MinorVersion(version) as int)
  {
  }

  /** Lowering the requirement lexicographically keeps a passing version passing. */
  lemma VersionOrderMonotone(version: bv32, cmpMajor: int, cmpMinor: int, lowerMajor: int, lowerMinor: int)
    requires IsVersionEqualOrHigher(version, cmpMajor, cmpMinor)
    requires lowerMajor < cmpMajor || (lowerMajor == cmpMajor && lowerMinor <= cmpMinor)
    ensures IsVersionEqualOrHigher(version, lowerMajor, lowerMinor)
  {
  }

  /** Firmware 2.16 meets 2.16 and 1.99 but not 2.17 or 3.0. */
  lemma VersionExample()
    ensures IsVersionEqualOrHigher(2 | (16 << 8), 2, 16)
    ensures IsVersionEqualOrHigher(2 | (16 << 8), 1, 99)
    ensures !IsVersionEqualOrHigher(2 | (16 << 8), 2, 17)
    ensures !IsVersionEqualOrHigher(2 | (16 << 8), 3, 0)
  {
  }

  // ---------------------------------------------------------------------
  // Product-code capability checks
  // ---------------------------------------------------------------------

  /** The product id: the low 16 bits of the product code; the device id fills the rest. */
  function ProductId(info: HardwareInfoEx): (pid: bv32)
    ensures pid <= 0xFFFF
    ensures pid & PRODCODE_MASK_DID == 0
    ensures pid | (info.productCode & PRODCODE_MASK_DID) == info.productCode
  {
    info.productCode & PRODCODE_MASK_PID
  }

  /** `check_is_systec`: a product id from the multiport module (0x1103) upwards. */
  predicate IsSystec(info: HardwareInfoEx)
    ensures IsSystec(info) <==> info.productCode % 0x1_0000 >= PRODCODE_PID_MULTIPORT
  {
    ProductId(info) >= PRODCODE_PID_MULTIPORT
  }

  /** `check_is_G4` returns the masked bit itself, 0 or 0x20, not a `bool`. */
  function G4Bit(info: HardwareInfoEx): (bit: bv32)
    ensures bit == 0 || bit == PRODCODE_PID_G4
    ensures bit == PRODCODE_PID_G4 <==> (info.productCode >> 5) % 2 == 1
  {
    info.productCode & PRODCODE_PID_G4
  }

  predicate IsG4(info: HardwareInfoEx)
    ensures IsG4(info) <==> (info.productCode >> 5) % 2 == 1
  {
    G4Bit(info) != 0
  }

  /** `check_is_G3`: a systec module without the generation bit. */
  predicate IsG3(info: HardwareInfoEx)
    ensures IsG3(info) <==> info.productCode % 0x1_0000 >= PRODCODE_PID_MULTIPORT && (info.productCode >> 5) % 2 == 0
  {
    IsSystec(info) && !IsG4(info)
  }

  /** `check_support_cyclic_msg`: a systec module with firmware 3.6 or later. */
  predicate SupportsCyclicMsg(info: HardwareInfoEx)
    ensures SupportsCyclicMsg(info) <==> IsSystec(info) && VersionKey(info.fwVersion) >= 3 * 0x100 + 6
  {
    IsSystec(info) && IsVersionEqualOrHigher(info.fwVersion, 3, 6)
  }

  /** `check_support_two_channel`: a systec module with the two-channel bit. */
  predicate SupportsTwoChannel(info: HardwareInfoEx)
    ensures SupportsTwoChannel(info) <==> IsSystec(info) && info.productCode % 2 == 1
  {
    IsSystec(info) && info.productCode & PRODCODE_PID_TWO_CHA != 0
  }

  /** `check_support_term_resistor`, `check_support_rb_user_port` and
      `check_support_rb_can_port` each return their masked bit, 0 or 1. All three masks
      are bit 0 of the product code. */
  function TermResistorBit(info: HardwareInfoEx): (bit: bv32)
    ensures bit == 0 || bit == 1
    ensures bit == 1 <==> info.productCode % 2 == 1
  {
    info.productCode & PRODCODE_PID_TERM
  }

  function RbUserPortBit(info: HardwareInfoEx): (bit: bv32)
    ensures bit == 0 || bit == 1
    ensures bit == 1 <==> info.productCode % 2 == 1
  {
    info.productCode & PRODCODE_PID_RBUSER
  }

  function RbCanPortBit(info: HardwareInfoEx): (bit: bv32)
    ensures bit == 0 || bit == 1
    ensures bit == 1 <==> info.productCode % 2 == 1
  {
    info.productCode & PRODCODE_PID_RBCAN
  }

  predicate SupportsTermResistor(info: HardwareInfoEx)
    ensures SupportsTermResistor(info) <==> info.productCode % 2 == 1
  {
    TermResistorBit(info) != 0
  }

  /** `check_support_user_port`: neither the basic module nor the reserved id 0x1144, and
      firmware 2.16 or later. */
  predicate SupportsUserPort(info: HardwareInfoEx)
    ensures SupportsUserPort(info)
            <==> info.productCode % 0x1_0000 != PRODCODE_PID_BASIC
                 && info.productCode % 0x1_0000 != PRODCODE_PID_RESERVED1
                 && VersionKey(info.fwVersion) >= 2 * 0x100 + 16
  {
    VersionOrderIsKeyOrder(info.fwVersion, 2, 16);
    ProductId(info) != PRODCODE_PID_BASIC
    && ProductId(info) != PRODCODE_PID_RESERVED1
    && IsVersionEqualOrHigher(info.fwVersion, 2, 16)
  }

  predicate SupportsRbUserPort(info: HardwareInfoEx)
    ensures SupportsRbUserPort(info) <==> info.productCode % 2 == 1
  {
    RbUserPortBit(info) != 0
  }

  predicate SupportsRbCanPort(info: HardwareInfoEx)
    ensures SupportsRbCanPort(info) <==> info.productCode % 2 == 1
  {
    RbCanPortBit(info) != 0
  }

  /** `check_support_ucannet`: a systec module with firmware 3.8 or later. */
  predicate SupportsUcannet(info: HardwareInfoEx)
    ensures SupportsUcannet(info) <==> IsSystec(info) && VersionKey(info.fwVersion) >= 3 * 0x100 + 8
  {
    IsSystec(info) && IsVersionEqualOrHigher(info.fwVersion, 3, 8)
  }

  /** The three read-back and resistor checks test the same bit, and on a systec module the
      two-channel check tests it too: every module reporting one reports all of them. */
  lemma LowBitChecksAgree(info: HardwareInfoEx)
    ensures SupportsTermResistor(info) <==> SupportsRbUserPort(info)
    ensures SupportsRbUserPort(info) <==> SupportsRbCanPort(info)
    ensures IsSystec(info) ==> (SupportsTwoChannel(info) <==> SupportsTermResistor(info))
  {
  }

  /** No module is both third and fourth generation. */
  lemma G3AndG4Exclusive(info: HardwareInfoEx)
    ensures !(IsG3(info) && IsG4(info))
  {
  }

  /** Firmware that supports the USB-CANnetwork driver (3.8 or later) also supports cyclic
      messages (3.6 or later). */
  lemma UcannetImpliesCyclic(info: HardwareInfoEx)
    ensures SupportsUcannet(info) ==> SupportsCyclicMsg(info)
  {
    if SupportsUcannet(info) {
      VersionOrderMonotone(info.fwVersion, 3, 8, 3, 6);
    }
  }

  /** The outdated GW-001 and GW-002 adapters fail every check that needs a systec module,
      whatever the device-id bits and firmware version. */
  lemma GatewaysAreNotSystec(info: HardwareInfoEx)
    requires ProductId(info) == PRODCODE_PID_GW001 || ProductId(info) == PRODCODE_PID_GW002
    ensures !IsSystec(info) && !IsG3(info) && !IsG4(info)
    ensures !SupportsCyclicMsg(info) && !SupportsTwoChannel(info) && !SupportsUcannet(info)
  {
  }

  /** A USB-CANmodul1 G3 never offers the user I/O port. */
  lemma BasicHasNoUserPort(info: HardwareInfoEx)
    requires ProductId(info) == PRODCODE_PID_BASIC
    ensures !SupportsUserPort(info)
  {
  }

  /** The generation bit 0x20 separates the G3 and G4 codes of the product table. */
  lemma ProductTableGenerations(info: HardwareInfoEx)
    ensures ProductId(info) == PRODCODE_PID_ADVANCED_G4 || ProductId(info) == PRODCODE_PID_BASIC_G4
            ==> IsSystec(info) && IsG4(info)
    ensures ProductId(info) == PRODCODE_PID_BASIC || ProductId(info) == PRODCODE_PID_ADVANCED
            ==> IsG3(info)
  {
  }
}
