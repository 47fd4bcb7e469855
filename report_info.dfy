/** The immutable records of the report model. Every record keeps its
    constructor's arguments unchanged behind get-only properties; a Dafny
    datatype does the same by construction. A nullable value is an `Option`. */
module ReportInfo {
  import opened Ints
  import opened Wrappers
  import opened Enums

  /** `string.IsNullOrEmpty` on a nullable string. */
  predicate IsNullOrEmpty(s: Option<string>)
  {
    s.None? || s.value == ""
  }

  datatype ProcessorInfo = ProcessorInfo(typeEncoding: ProcessorTypeEncoding, cpuType: u64, cpuSubtype: u64)

  /** `timestamp` is the generation time in Unix seconds; `None` when unavailable. */
  datatype SystemInfo = SystemInfo(
    operatingSystem: OperatingSystem,
    operatingSystemVersion: string,
    operatingSystemBuild: Option<string>,
    architecture: Architecture,
    processorInfo: ProcessorInfo,
    timestamp: Option<i64>)

  datatype MachineInfo = MachineInfo(
    modelName: Option<string>,
    processorInfo: Option<ProcessorInfo>,
    processorCount: u32,
    logicalProcessorCount: u32)

  datatype ApplicationInfo = ApplicationInfo(
    applicationIdentifier: string,
    applicationVersion: string,
    applicationMarketingVersion: Option<string>)

  /** `processStartTime` is in Unix seconds; `native` is false under process-level CPU emulation. */
  datatype ProcessInfo = ProcessInfo(
    processName: Option<string>,
    processID: u32,
    processPath: Option<string>,
    processStartTime: Option<i64>,
    parentProcessName: Option<string>,
    parentProcessID: u32,
    native: bool)

  datatype SignalInfo = SignalInfo(name: string, code: string, address: u64)

  datatype MachExceptionInfo = MachExceptionInfo(exceptionType: u64, codes: seq<u64>)

  /** `endAddress` may be 0 when unavailable; no offset is computed from it. */
  datatype SymbolInfo = SymbolInfo(symbolName: string, startAddress: u64, endAddress: u64)

  datatype StackFrameInfo = StackFrameInfo(instructionPointer: u64, symbolInfo: Option<SymbolInfo>)

  datatype RegisterInfo = RegisterInfo(registerName: string, registerValue: u64)

  datatype ThreadInfo = ThreadInfo(
    threadNumber: i32,
    stackFrames: seq<StackFrameInfo>,
    crashed: bool,
    registers: seq<RegisterInfo>)

  datatype BinaryImageInfo = BinaryImageInfo(
    codeType: Option<ProcessorInfo>,
    imageBaseAddress: u64,
    imageSize: u64,
    imageName: string,
    imageUUID: Option<string>)
  {
    /** A UUID counts only when it is there and not empty. */
    predicate HasImageUUID()
      ensures HasImageUUID() <==> imageUUID.Some? && |imageUUID.value| > 0
    {
      !IsNullOrEmpty(imageUUID)
    }
  }

  /** `stackFrames` is only there for a crash caused by an uncaught exception. */
  datatype ExceptionInfo = ExceptionInfo(
    exceptionName: string,
    exceptionReason: string,
    stackFrames: Option<seq<StackFrameInfo>>)

  /** The constructor with its optional frames argument left out. */
  function NewExceptionInfo(exceptionName: string, exceptionReason: string): (e: ExceptionInfo)
    ensures e.exceptionName == exceptionName && e.exceptionReason == exceptionReason
    ensures e.stackFrames.None?
  {
    ExceptionInfo(exceptionName, exceptionReason, None)
  }

  /** A missing UUID and an empty one are the same to `HasImageUUID`. */
  lemma HasImageUUIDTreatsEmptyAsMissing(image: BinaryImageInfo)
    ensures !image.(imageUUID := None).HasImageUUID()
    ensures !image.(imageUUID := Some("")).HasImageUUID()
    ensures forall u :: u != "" ==> image.(imageUUID := Some(u)).HasImageUUID()
  {
  }
}
