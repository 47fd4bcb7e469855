/** The decoded protobuf message, as far as the extractor reads it. The
    protobuf parser itself is not part of this model: it is given as a
    function from the payload bytes to this message (or to a failure).
    Sections the schema marks `required` (system info, application info,
    signal) are always present once parsing succeeds; optional sections are
    `Option`s; an unset string, bytes or number field reads as its default
    (empty or zero), which is why the extractor tests for "" and 0. */
module Proto {
  import opened Ints
  import opened Wrappers

  datatype Processor = Processor(encoding: i32, cpuType: u64, cpuSubtype: u64)

  datatype SystemInfo = SystemInfo(
    operatingSystem: i32,
    osVersion: string,
    osBuild: string,
    architecture: i32,
    timestamp: i64)

  datatype MachineInfo = MachineInfo(
    model: string,
    processor: Option<Processor>,
    processorCount: u32,
    logicalProcessorCount: u32)

  datatype ApplicationInfo = ApplicationInfo(identifier: string, version: string, marketingVersion: string)

  datatype ProcessInfo = ProcessInfo(
    processName: string,
    processId: u32,
    processPath: string,
    parentProcessName: string,
    parentProcessId: u32,
    native: bool,
    startTime: u64)

  datatype MachException = MachException(exceptionType: u64, codes: seq<u64>)

  datatype Signal = Signal(name: string, code: string, address: u64, machException: Option<MachException>)

  datatype Symbol = Symbol(name: string, startAddress: u64, endAddress: u64)

  datatype Frame = Frame(pc: u64, symbol: Option<Symbol>)

  datatype Register = Register(name: string, value: u64)

  datatype Thread = Thread(threadNumber: i32, frames: seq<Frame>, registers: seq<Register>, crashed: bool)

  datatype BinaryImage = BinaryImage(
    baseAddress: u64,
    size: u64,
    name: string,
    uuid: seq<byte>,
    codeType: Option<Processor>)

  datatype Exception = Exception(name: string, reason: string, frames: seq<Frame>)

  datatype ReportInfo = ReportInfo(uuid: seq<byte>)

  datatype CrashReport = CrashReport(
    systemInfo: SystemInfo,
    applicationInfo: ApplicationInfo,
    threads: seq<Thread>,
    binaryImages: seq<BinaryImage>,
    exception: Option<Exception>,
    signal: Signal,
    processInfo: Option<ProcessInfo>,
    machineInfo: Option<MachineInfo>,
    reportInfo: Option<ReportInfo>,
    customData: seq<byte>)
}
