/** The three closed numeric enumerations of the report model. Values reach
    them by an unchecked cast from the raw 32-bit number in the payload, so
    each has one more case that keeps a raw value the source does not name. */
module Enums {
  import opened Ints

  datatype OperatingSystem =
    | MacOSX            // 0
    | IPhoneOS          // 1
    | IPhoneSimulator   // 2
    | UnknownOS         // 3
    | AppleTVOS         // 4
    | UnnamedOS(raw: i32)
  {
    /** Each value has exactly one representation. */
    predicate Valid() { UnnamedOS? ==> raw < 0 || raw > 4 }
  }

  /** `(PLCrashReportOperatingSystem)raw`. */
  function OperatingSystemFromRaw(raw: i32): (os: OperatingSystem)
    ensures os.Valid() && OperatingSystemCode(os) == raw
  {
    match raw
    case 0 => MacOSX
    case 1 => IPhoneOS
    case 2 => IPhoneSimulator
    case 3 => UnknownOS
    case 4 => AppleTVOS
    case _ => UnnamedOS(raw)
  }

  /** `(int)os`. */
  function OperatingSystemCode(os: OperatingSystem): i32
  {
    match os
    case MacOSX => 0
    case IPhoneOS => 1
    case IPhoneSimulator => 2
    case UnknownOS => 3
    case AppleTVOS => 4
    case UnnamedOS(raw) => raw
  }

  lemma OperatingSystemCodeRoundTrip(os: OperatingSystem)
    requires os.Valid()
    ensures OperatingSystemFromRaw(OperatingSystemCode(os)) == os
  {
  }

  /** Legacy architecture codes; note that ARMv7 (5) comes after PPC64 (4). */
  datatype Architecture =
    | X86_32                 // 0
    | X86_64                 // 1
    | ARMv6                  // 2
    | PPC                    // 3
    | PPC64                  // 4
    | ARMv7                  // 5
    | UnknownArchitecture    // 6
    | UnnamedArchitecture(raw: i32)
  {
    predicate Valid() { UnnamedArchitecture? ==> raw < 0 || raw > 6 }
  }

  /** `(PLCrashReportArchitecture)raw`. */
  function ArchitectureFromRaw(raw: i32): (a: Architecture)
    ensures a.Valid() && ArchitectureCode(a) == raw
  {
    match raw
    case 0 => X86_32
    case 1 => X86_64
    case 2 => ARMv6
    case 3 => PPC
    case 4 => PPC64
    case 5 => ARMv7
    case 6 => UnknownArchitecture
    case _ => UnnamedArchitecture(raw)
  }

  function ArchitectureCode(a: Architecture): i32
  {
    match a
    case X86_32 => 0
    case X86_64 => 1
    case ARMv6 => 2
    case PPC => 3
    case PPC64 => 4
    case ARMv7 => 5
    case UnknownArchitecture => 6
    case UnnamedArchitecture(raw) => raw
  }

  lemma ArchitectureCodeRoundTrip(a: Architecture)
    requires a.Valid()
    ensures ArchitectureFromRaw(ArchitectureCode(a)) == a
  {
  }

  /** How a processor's type and subtype are to be read: only Mach-O's
      encoding is defined. */
  datatype ProcessorTypeEncoding =
    | UnknownEncoding    // 0
    | Mach               // 1
    | UnnamedEncoding(raw: i32)
  {
    predicate Valid() { UnnamedEncoding? ==> raw < 0 || raw > 1 }
  }

  /** `(PLCrashReportProcessorTypeEncoding)raw`. */
  function ProcessorTypeEncodingFromRaw(raw: i32): (e: ProcessorTypeEncoding)
    ensures e.Valid() && ProcessorTypeEncodingCode(e) == raw
    ensures e == Mach <==> raw == 1
  {
    match raw
    case 0 => UnknownEncoding
    case 1 => Mach
    case _ => UnnamedEncoding(raw)
  }

  function ProcessorTypeEncodingCode(e: ProcessorTypeEncoding): i32
  {
    match e
    case UnknownEncoding => 0
    case Mach => 1
    case UnnamedEncoding(raw) => raw
  }

  lemma ProcessorTypeEncodingCodeRoundTrip(e: ProcessorTypeEncoding)
    requires e.Valid()
    ensures ProcessorTypeEncodingFromRaw(ProcessorTypeEncodingCode(e)) == e
  {
  }
}
