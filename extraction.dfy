/** `PLCrashReport`'s construction: the container check of `DecodeCrashData`
    and the mapping of the decoded message into the report model
    (`ExtractInformation` and its `Extract*` helpers). */
module Extraction {
  import opened Ints
  import opened Wrappers
  import opened Strings
  import opened Enums
  import opened ReportInfo
  import opened CrashReport
  import Proto

  // ------------------------------------------------------------------ errors

  /** The three `InvalidDataException`s of the container check. */
  datatype ContainerError = TruncatedInput | InvalidHeader | UnsupportedVersion(version: byte)
  {
    function Message(): (m: string)
    {
      match this
      case TruncatedInput => "Could not decode truncated crash log"
      case InvalidHeader => "Could not decode invalid crash log header"
      case UnsupportedVersion(v) => "Could not decode unsupported crash report version: " + Decimal(v)
    }
  }

  const VersionMessagePrefix: string := "Could not decode unsupported crash report version: "

  /** The version message ends with the offending byte in decimal, and that
      byte can be read back from it. */
  lemma UnsupportedVersionMessage(v: byte)
    ensures UnsupportedVersion(v).Message() == VersionMessagePrefix + Decimal(v)
    ensures DigitsValue(UnsupportedVersion(v).Message()[|VersionMessagePrefix|..], 10) == v
  {
    var m := UnsupportedVersion(v).Message();
    assert m[|VersionMessagePrefix|..] == Decimal(v);
    DigitsRoundTrip(v, 10);
  }

  /** Why building a report can fail: a bad container, a payload the parser
      rejects, or a time outside what `DateTimeOffset.FromUnixTimeSeconds`
      accepts (it throws `ArgumentOutOfRangeException`). */
  datatype DecodeError =
    | InvalidContainer(reason: ContainerError)
    | MalformedPayload
    | TimestampOutOfRange(seconds: int)

  /** The protobuf parser: the message, or `None` when it throws. */
  type Parser = seq<byte> -> Option<Proto.CrashReport>

  // ------------------------------------------------------- container check

  /** `Encoding.ASCII.GetString`: bytes above 0x7F decode as '?'. */
  function AsciiString(bytes: seq<byte>): (s: string)
    ensures |s| == |bytes|
    ensures forall i :: 0 <= i < |bytes| ==> s[i] == if bytes[i] < 0x80 then bytes[i] as char else '?'
  {
    seq(|bytes|, i requires 0 <= i < |bytes| => if bytes[i] < 0x80 then bytes[i] as char else '?')
  }

  /** The magic in bytes: 'p' 'l' 'c' 'r' 'a' 's' 'h'. */
  const MagicBytes: seq<byte> := [0x70, 0x6C, 0x63, 0x72, 0x61, 0x73, 0x68]

  /** Comparing the ASCII text with "plcrash" is comparing the bytes, since
      '?' is not a letter of the magic. */
  lemma MagicTextIsMagicBytes(bytes: seq<byte>)
    requires |bytes| == 7
    ensures AsciiString(bytes) == FileMagic <==> bytes == MagicBytes
  {
    if AsciiString(bytes) == FileMagic {
      forall i | 0 <= i < 7
        ensures bytes[i] == MagicBytes[i]
      {
        assert AsciiString(bytes)[i] == FileMagic[i];
      }
    }
  }

  /** `DecodeCrashData`: length, then magic, then version; only then is the
      rest of the buffer parsed and the report extracted. */
  method DecodeCrashData(data: seq<byte>, parse: Parser) returns (r: Result<Report, DecodeError>)
    ensures |data| < 8 ==> r == Failure(InvalidContainer(TruncatedInput))
    ensures |data| >= 8 && data[..7] != MagicBytes ==> r == Failure(InvalidContainer(InvalidHeader))
    ensures |data| >= 8 && data[..7] == MagicBytes && data[7] != FileVersion ==>
              r == Failure(InvalidContainer(UnsupportedVersion(data[7])))
    ensures |data| >= 8 && data[..7] == MagicBytes && data[7] == FileVersion ==>
              r == match parse(data[8..])
                   case None => Failure(MalformedPayload)
                   case Some(message) => ReportFromMessage(message)
  {
    if |data| < 8 {
      return Failure(InvalidContainer(TruncatedInput));
    }
    assert data[0..7] == data[..7];
    var magic := AsciiString(data[0..7]);
    MagicTextIsMagicBytes(data[0..7]);
    if magic != FileMagic {
      return Failure(InvalidContainer(InvalidHeader));
    }
    var version := data[7];
    if version != FileVersion {
      return Failure(InvalidContainer(UnsupportedVersion(version)));
    }
    var protobufData := data[8..|data|];
    assert protobufData == data[8..];
    var crashReport := parse(protobufData);
    if crashReport.None? {
      return Failure(MalformedPayload);
    }
    r := ExtractInformation(crashReport.value);
  }

  // --------------------------------------------------------- small builders

  /** The range of `DateTimeOffset.FromUnixTimeSeconds`: 0001-01-01 to 9999-12-31. */
  const MinUnixSeconds: int := -62135596800
  const MaxUnixSeconds: int := 253402300799

  /** A nonzero time in Unix seconds, or `None` for zero; fails outside the
      range the .NET conversion accepts. */
  function OptionalTimestamp(seconds: i64): (r: Result<Option<i64>, DecodeError>)
    ensures seconds == 0 ==> r == Success(None)
    ensures seconds != 0 && MinUnixSeconds <= seconds <= MaxUnixSeconds ==> r == Success(Some(seconds))
    ensures (seconds < MinUnixSeconds || seconds > MaxUnixSeconds) ==> r == Failure(TimestampOutOfRange(seconds))
  {
    if seconds == 0 then Success(None)
    else if MinUnixSeconds <= seconds <= MaxUnixSeconds then Success(Some(seconds))
    else Failure(TimestampOutOfRange(seconds))
  }

  /** An empty protobuf string means "not given". */
  function NullIfEmpty(s: string): (r: Option<string>)
    ensures r.None? <==> s == ""
    ensures r.Some? ==> r.value == s
  {
    if s == "" then None else Some(s)
  }

  /** Processor info for a v1 report, which only names a legacy architecture. */
  function SynthesizeProcessorInfoFromArchitecture(architecture: Architecture): ProcessorInfo
  {
    match architecture
    case X86_32 => ProcessorInfo(Mach, 7, 3)
    case X86_64 => ProcessorInfo(Mach, 0x01000007, 3)
    case ARMv6 => ProcessorInfo(Mach, 12, 6)
    case ARMv7 => ProcessorInfo(Mach, 12, 9)
    case PPC => ProcessorInfo(Mach, 18, 0)
    case PPC64 => ProcessorInfo(Mach, 0x01000012, 0)
    case _ => ProcessorInfo(UnknownEncoding, 0, 0)
  }

  /** The table above is closed: the six named architectures get a Mach
      processor, everything else (Unknown and unnamed raw values) the Unknown
      encoding with zero type and subtype. */
  lemma SynthesizedProcessorInfo(architecture: Architecture)
    ensures var p := SynthesizeProcessorInfoFromArchitecture(architecture);
      && (p.typeEncoding == Mach <==> architecture in {X86_32, X86_64, ARMv6, ARMv7, PPC, PPC64})
      && (p.typeEncoding != Mach ==> p == ProcessorInfo(UnknownEncoding, 0, 0))
      && (architecture in {ARMv6, ARMv7} ==> p.cpuType == 12)
  {
  }

  function ProcessorFromMessage(p: Proto.Processor): (r: ProcessorInfo)
    ensures r.typeEncoding.Valid() && ProcessorTypeEncodingCode(r.typeEncoding) == p.encoding
    ensures r.typeEncoding == Mach <==> p.encoding == 1
    ensures r.cpuType == p.cpuType && r.cpuSubtype == p.cpuSubtype
  {
    ProcessorInfo(ProcessorTypeEncodingFromRaw(p.encoding), p.cpuType, p.cpuSubtype)
  }

  function ExtractSystemInfo(systemInfo: Proto.SystemInfo, processorInfo: Option<ProcessorInfo>): Result<SystemInfo, DecodeError>
  {
    var timestamp :- OptionalTimestamp(systemInfo.timestamp);
    var processor :=
      if processorInfo.None?
      then SynthesizeProcessorInfoFromArchitecture(ArchitectureFromRaw(systemInfo.architecture))
      else processorInfo.value;
    Success(SystemInfo(
      OperatingSystemFromRaw(systemInfo.operatingSystem),
      systemInfo.osVersion,
      NullIfEmpty(systemInfo.osBuild),
      ArchitectureFromRaw(systemInfo.architecture),
      processor,
      timestamp))
  }

  function ExtractMachineInfo(machineInfo: Proto.MachineInfo): MachineInfo
  {
    MachineInfo(
      NullIfEmpty(machineInfo.model),
      if machineInfo.processor.Some? then Some(ProcessorFromMessage(machineInfo.processor.value)) else None,
      machineInfo.processorCount,
      machineInfo.logicalProcessorCount)
  }

  function ExtractApplicationInfo(applicationInfo: Proto.ApplicationInfo): ApplicationInfo
  {
    ApplicationInfo(applicationInfo.identifier, applicationInfo.version, NullIfEmpty(applicationInfo.marketingVersion))
  }

  /** The start time is a `ulong` cast to `long` before conversion. */
  function ExtractProcessInfo(processInfo: Proto.ProcessInfo): Result<ProcessInfo, DecodeError>
  {
    var startTime :- OptionalTimestamp(ToInt64(processInfo.startTime));
    Success(ProcessInfo(
      NullIfEmpty(processInfo.processName),
      processInfo.processId,
      NullIfEmpty(processInfo.processPath),
      startTime,
      NullIfEmpty(processInfo.parentProcessName),
      processInfo.parentProcessId,
      processInfo.native))
  }

  function ExtractSignalInfo(signal: Proto.Signal): SignalInfo
  {
    SignalInfo(signal.name, signal.code, signal.address)
  }

  function ExtractMachExceptionInfo(machException: Proto.MachException): MachExceptionInfo
  {
    MachExceptionInfo(machException.exceptionType, machException.codes)
  }

  // ------------------------------------------------ one-for-one conversions

  function SymbolFromMessage(symbol: Proto.Symbol): SymbolInfo
  {
    SymbolInfo(symbol.name, symbol.startAddress, symbol.endAddress)
  }

  function FrameFromMessage(frame: Proto.Frame): StackFrameInfo
  {
    StackFrameInfo(frame.pc, if frame.symbol.Some? then Some(SymbolFromMessage(frame.symbol.value)) else None)
  }

  function FramesFromMessages(frames: seq<Proto.Frame>): (r: seq<StackFrameInfo>)
    ensures |r| == |frames|
    ensures forall j :: 0 <= j < |frames| ==> r[j] == FrameFromMessage(frames[j])
  {
    seq(|frames|, j requires 0 <= j < |frames| => FrameFromMessage(frames[j]))
  }

  function RegisterFromMessage(register: Proto.Register): RegisterInfo
  {
    RegisterInfo(register.name, register.value)
  }

  function ThreadFromMessage(thread: Proto.Thread): ThreadInfo
  {
    ThreadInfo(
      thread.threadNumber,
      FramesFromMessages(thread.frames),
      thread.crashed,
      seq(|thread.registers|, k requires 0 <= k < |thread.registers| => RegisterFromMessage(thread.registers[k])))
  }

  function ThreadsFromMessages(threads: seq<Proto.Thread>): (r: seq<ThreadInfo>)
    ensures |r| == |threads|
    ensures forall i :: 0 <= i < |threads| ==> r[i] == ThreadFromMessage(threads[i])
  {
    seq(|threads|, i requires 0 <= i < |threads| => ThreadFromMessage(threads[i]))
  }

  function ImageFromMessage(image: Proto.BinaryImage): BinaryImageInfo
  {
    BinaryImageInfo(
      if image.codeType.Some? then Some(ProcessorFromMessage(image.codeType.value)) else None,
      image.baseAddress,
      image.size,
      image.name,
      if |image.uuid| == 16 then Some(GuidText(image.uuid)) else None)
  }

  function ImagesFromMessages(images: seq<Proto.BinaryImage>): (r: seq<BinaryImageInfo>)
    ensures |r| == |images|
    ensures forall i :: 0 <= i < |images| ==> r[i] == ImageFromMessage(images[i])
  {
    seq(|images|, i requires 0 <= i < |images| => ImageFromMessage(images[i]))
  }

  function ExceptionFromMessage(exception: Proto.Exception): ExceptionInfo
  {
    ExceptionInfo(
      exception.name,
      exception.reason,
      if |exception.frames| > 0 then Some(FramesFromMessages(exception.frames)) else None)
  }

  /** The report's UUID: the payload's when it is 16 bytes long. */
  function ReportUuid(message: Proto.CrashReport): (u: Option<Guid>)
    ensures u.Some? <==> message.reportInfo.Some? && |message.reportInfo.value.uuid| == 16
    ensures u.Some? ==> u.value == message.reportInfo.value.uuid
  {
    if message.reportInfo.Some? && |message.reportInfo.value.uuid| == 16
    then Some(message.reportInfo.value.uuid) else None
  }

  function ReportMachineInfo(message: Proto.CrashReport): Option<MachineInfo>
  {
    if message.machineInfo.Some? then Some(ExtractMachineInfo(message.machineInfo.value)) else None
  }

  /** The process section: absent, or converted (which can fail on its start time). */
  function ReportProcessInfo(message: Proto.CrashReport): Result<Option<ProcessInfo>, DecodeError>
  {
    match message.processInfo
    case None => Success(None)
    case Some(p) => (var q :- ExtractProcessInfo(p); Success(Some(q)))
  }

  /** The report built from the message once its two times have converted. */
  function AssembledReport(message: Proto.CrashReport, systemInfo: SystemInfo, processInfo: Option<ProcessInfo>): Report
  {
    var machineInfo := ReportMachineInfo(message);
    Report(
      systemInfo,
      machineInfo,
      ExtractApplicationInfo(message.applicationInfo),
      processInfo,
      ExtractSignalInfo(message.signal),
      if message.signal.machException.Some? then Some(ExtractMachExceptionInfo(message.signal.machException.value)) else None,
      ThreadsFromMessages(message.threads),
      ImagesFromMessages(message.binaryImages),
      if message.exception.Some? then Some(ExceptionFromMessage(message.exception.value)) else None,
      if |message.customData| > 0 then Some(message.customData) else None,
      ReportUuid(message))
  }

  /** The whole report a message decodes to: the specification of `ExtractInformation`. */
  function ReportFromMessage(message: Proto.CrashReport): Result<Report, DecodeError>
  {
    var machineInfo := ReportMachineInfo(message);
    var systemInfo :-
      ExtractSystemInfo(message.systemInfo, if machineInfo.Some? then machineInfo.value.processorInfo else None);
    var processInfo :- ReportProcessInfo(message);
    Success(AssembledReport(message, systemInfo, processInfo))
  }

  // ------------------------------------------------------ array-filling loops

  /** `ExtractThreadInfo`: fills a fresh array with one thread per payload
      thread, each with freshly filled frame and register arrays. */
  method ExtractThreadInfo(crashReport: Proto.CrashReport) returns (r: seq<ThreadInfo>)
    ensures r == ThreadsFromMessages(crashReport.threads)
  {
    var threads := new ThreadInfo[|crashReport.threads|];
    for i := 0 to |crashReport.threads|
      invariant forall k :: 0 <= k < i ==> threads[k] == ThreadFromMessage(crashReport.threads[k])
    {
      var thread := crashReport.threads[i];
      var frames := new StackFrameInfo[|thread.frames|];
      for j := 0 to |thread.frames|
        modifies frames
        invariant forall k :: 0 <= k < j ==> frames[k] == FrameFromMessage(thread.frames[k])
      {
        var frame := thread.frames[j];
        var symbolInfo: Option<SymbolInfo> := None;
        if frame.symbol.Some? {
          symbolInfo := Some(SymbolInfo(frame.symbol.value.name, frame.symbol.value.startAddress, frame.symbol.value.endAddress));
        }
        frames[j] := StackFrameInfo(frame.pc, symbolInfo);
      }
      var registers := new RegisterInfo[|thread.registers|];
      for k := 0 to |thread.registers|
        modifies registers
        invariant forall m :: 0 <= m < k ==> registers[m] == RegisterFromMessage(thread.registers[m])
      {
        var reg := thread.registers[k];
        registers[k] := RegisterInfo(reg.name, reg.value);
      }
      assert frames[..] == FramesFromMessages(thread.frames);
      assert registers[..] == ThreadFromMessage(thread).registers;
      threads[i] := ThreadInfo(thread.threadNumber, frames[..], thread.crashed, registers[..]);
    }
    r := threads[..];
    assert r == ThreadsFromMessages(crashReport.threads);
  }

  /** `ExtractImageInfo`: one image per payload image, in payload order. */
  method ExtractImageInfo(crashReport: Proto.CrashReport) returns (r: seq<BinaryImageInfo>)
    ensures r == ImagesFromMessages(crashReport.binaryImages)
  {
    var images := new BinaryImageInfo[|crashReport.binaryImages|];
    for i := 0 to |crashReport.binaryImages|
      invariant forall k :: 0 <= k < i ==> images[k] == ImageFromMessage(crashReport.binaryImages[k])
    {
      var image := crashReport.binaryImages[i];
      var codeType: Option<ProcessorInfo> := None;
      if image.codeType.Some? {
        codeType := Some(ProcessorInfo(
          ProcessorTypeEncodingFromRaw(image.codeType.value.encoding),
          image.codeType.value.cpuType,
          image.codeType.value.cpuSubtype));
      }
      var uuid: Option<string> := None;
      if |image.uuid| == 16 {
        uuid := Some(GuidText(image.uuid));
      }
      images[i] := BinaryImageInfo(codeType, image.baseAddress, image.size, image.name, uuid);
    }
    r := images[..];
    assert r == ImagesFromMessages(crashReport.binaryImages);
  }

  /** `ExtractExceptionInfo`: no frame array at all when there are no frames. */
  method ExtractExceptionInfo(exception: Proto.Exception) returns (r: ExceptionInfo)
    ensures r.exceptionName == exception.name && r.exceptionReason == exception.reason
    ensures r.stackFrames.None? <==> |exception.frames| == 0
    ensures r.stackFrames.Some? ==>
              |r.stackFrames.value| == |exception.frames| &&
              forall i :: 0 <= i < |exception.frames| ==> r.stackFrames.value[i] == FrameFromMessage(exception.frames[i])
    ensures r == ExceptionFromMessage(exception)
  {
    var frames: Option<seq<StackFrameInfo>> := None;
    if |exception.frames| > 0 {
      var a := new StackFrameInfo[|exception.frames|];
      for i := 0 to |exception.frames|
        invariant forall k :: 0 <= k < i ==> a[k] == FrameFromMessage(exception.frames[k])
      {
        var frame := exception.frames[i];
        var symbolInfo: Option<SymbolInfo> := None;
        if frame.symbol.Some? {
          symbolInfo := Some(SymbolInfo(frame.symbol.value.name, frame.symbol.value.startAddress, frame.symbol.value.endAddress));
        }
        a[i] := StackFrameInfo(frame.pc, symbolInfo);
      }
      assert a[..] == FramesFromMessages(exception.frames);
      frames := Some(a[..]);
    }
    r := ExceptionInfo(exception.name, exception.reason, frames);
  }

  /** `ExtractInformation`: sets the report's properties one after another. */
  method ExtractInformation(crashReport: Proto.CrashReport) returns (r: Result<Report, DecodeError>)
    ensures r == ReportFromMessage(crashReport)
  {
    var uuidRef: Option<Guid> := None;
    if crashReport.reportInfo.Some? && |crashReport.reportInfo.value.uuid| == 16 {
      uuidRef := Some(crashReport.reportInfo.value.uuid);
    }
    assert uuidRef == ReportUuid(crashReport);
    var machineInfo: Option<MachineInfo> := None;
    if crashReport.machineInfo.Some? {
      machineInfo := Some(ExtractMachineInfo(crashReport.machineInfo.value));
    }
    assert machineInfo == ReportMachineInfo(crashReport);
    var systemInfo :- ExtractSystemInfo(crashReport.systemInfo, if machineInfo.Some? then machineInfo.value.processorInfo else None);
    var applicationInfo := ExtractApplicationInfo(crashReport.applicationInfo);
    var processInfo: Option<ProcessInfo> := None;
    if crashReport.processInfo.Some? {
      var p :- ExtractProcessInfo(crashReport.processInfo.value);
      processInfo := Some(p);
    }
    var signalInfo := ExtractSignalInfo(crashReport.signal);
    var machExceptionInfo: Option<MachExceptionInfo> := None;
    if crashReport.signal.machException.Some? {
      machExceptionInfo := Some(ExtractMachExceptionInfo(crashReport.signal.machException.value));
    }
    var threads := ExtractThreadInfo(crashReport);
    var images := ExtractImageInfo(crashReport);
    var exceptionInfo: Option<ExceptionInfo> := None;
    if crashReport.exception.Some? {
      var e := ExtractExceptionInfo(crashReport.exception.value);
      exceptionInfo := Some(e);
    }
    var customData: Option<seq<byte>> := None;
    if |crashReport.customData| > 0 {
      customData := Some(crashReport.customData);
    }
    r := Success(Report(systemInfo, machineInfo, applicationInfo, processInfo, signalInfo, machExceptionInfo,
                        threads, images, exceptionInfo, customData, uuidRef));
  }

  // ---------------------------------------------------------------- properties

  /** Whether the message's times are all ones the .NET conversion accepts. */
  predicate InRange(seconds: int)
  {
    MinUnixSeconds <= seconds <= MaxUnixSeconds
  }

  /** Extraction fails exactly when a time is out of range, and the system
      time is looked at before the process start time. */
  lemma ExtractionFailure(message: Proto.CrashReport)
    ensures ReportFromMessage(message).Failure? <==>
              !InRange(message.systemInfo.timestamp) ||
              (message.processInfo.Some? && !InRange(ToInt64(message.processInfo.value.startTime)))
    ensures !InRange(message.systemInfo.timestamp) ==>
              ReportFromMessage(message) == Failure(TimestampOutOfRange(message.systemInfo.timestamp))
    ensures InRange(message.systemInfo.timestamp) && message.processInfo.Some? &&
            !InRange(ToInt64(message.processInfo.value.startTime)) ==>
              ReportFromMessage(message) == Failure(TimestampOutOfRange(ToInt64(message.processInfo.value.startTime)))
  {
  }

  /** A successfully extracted report never holds an empty string where the
      source stores null, nor a zero time, and its identifiers have their sizes. */
  lemma ExtractedReportIsNormalized(message: Proto.CrashReport)
    requires ReportFromMessage(message).Success?
    ensures Normalized(ReportFromMessage(message).value)
  {
  }

  /** What the report keeps of the message: optional sections are present
      exactly when the message has them, the collections have the message's
      lengths, and the optional byte fields follow their own presence rules. */
  lemma ExtractedReportMirrorsMessage(message: Proto.CrashReport)
    requires ReportFromMessage(message).Success?
    ensures var r := ReportFromMessage(message).value;
      && (r.HasMachineInfo() <==> message.machineInfo.Some?)
      && (r.HasProcessInfo() <==> message.processInfo.Some?)
      && (r.HasExceptionInfo() <==> message.exception.Some?)
      && (r.machExceptionInfo.Some? <==> message.signal.machException.Some?)
      && |r.threads| == |message.threads|
      && |r.images| == |message.binaryImages|
      && (r.customData.Some? <==> |message.customData| > 0)
      && (r.customData.Some? ==> r.customData.value == message.customData)
      && (r.uuidRef.Some? <==> message.reportInfo.Some? && |message.reportInfo.value.uuid| == 16)
      && (r.uuidRef.Some? ==> r.uuidRef.value == message.reportInfo.value.uuid)
      && r.signalInfo == SignalInfo(message.signal.name, message.signal.code, message.signal.address)
  {
  }

  /** Empty strings become absent values, and absent values come only from empty strings. */
  lemma EmptyStringsBecomeAbsent(message: Proto.CrashReport)
    requires ReportFromMessage(message).Success?
    ensures var r := ReportFromMessage(message).value;
      && (r.systemInfo.operatingSystemBuild.None? <==> message.systemInfo.osBuild == "")
      && (r.applicationInfo.applicationMarketingVersion.None? <==> message.applicationInfo.marketingVersion == "")
      && (r.machineInfo.Some? ==> (r.machineInfo.value.modelName.None? <==> message.machineInfo.value.model == ""))
      && (r.processInfo.Some? ==>
            && (r.processInfo.value.processName.None? <==> message.processInfo.value.processName == "")
            && (r.processInfo.value.processPath.None? <==> message.processInfo.value.processPath == "")
            && (r.processInfo.value.parentProcessName.None? <==> message.processInfo.value.parentProcessName == ""))
  {
  }

  /** A zero time means "not recorded"; any other time is kept as given. */
  lemma TimestampsKeptUnlessZero(message: Proto.CrashReport)
    requires ReportFromMessage(message).Success?
    ensures var r := ReportFromMessage(message).value;
      && (r.systemInfo.timestamp.None? <==> message.systemInfo.timestamp == 0)
      && (r.systemInfo.timestamp.Some? ==> r.systemInfo.timestamp.value == message.systemInfo.timestamp)
      && (r.processInfo.Some? ==>
            && (r.processInfo.value.processStartTime.None? <==> message.processInfo.value.startTime == 0)
            && (r.processInfo.value.processStartTime.Some? ==>
                  r.processInfo.value.processStartTime.value == ToInt64(message.processInfo.value.startTime)))
  {
    var r := ReportFromMessage(message).value;
    if r.processInfo.Some? {
      var t := message.processInfo.value.startTime;
      assert ToInt64(t) == 0 <==> t == 0 by {
        if t >= Two63 { assert ToInt64(t) == t - Two64; }
      }
    }
  }

  /** The report's system processor comes from the machine info when that
      has one, and is otherwise synthesised from the legacy architecture. */
  lemma SystemProcessorRule(message: Proto.CrashReport)
    requires ReportFromMessage(message).Success?
    ensures var p := ReportFromMessage(message).value.systemInfo.processorInfo;
      if message.machineInfo.Some? && message.machineInfo.value.processor.Some?
      then p == ProcessorFromMessage(message.machineInfo.value.processor.value)
      else p == SynthesizeProcessorInfoFromArchitecture(ArchitectureFromRaw(message.systemInfo.architecture))
  {
  }

  /** Each image's UUID text is present exactly when the message's UUID has
      16 bytes, and those bytes can be read back from it. */
  lemma ImageUuidRule(image: Proto.BinaryImage)
    ensures ImageFromMessage(image).HasImageUUID() <==> |image.uuid| == 16
    ensures |image.uuid| == 16 ==> GuidBytes(ImageFromMessage(image).imageUUID.value) == image.uuid
  {
    if |image.uuid| == 16 {
      GuidTextRoundTrip(image.uuid);
    }
  }

  /** The exception keeps its frames, in order, and has none when there were none. */
  lemma ExceptionFramesRule(exception: Proto.Exception)
    ensures var e := ExceptionFromMessage(exception);
      && (e.stackFrames.None? <==> |exception.frames| == 0)
      && (e.stackFrames.Some? ==>
            && |e.stackFrames.value| == |exception.frames|
            && forall i :: 0 <= i < |exception.frames| ==>
                 && e.stackFrames.value[i] == FrameFromMessage(exception.frames[i])
                 && e.stackFrames.value[i].instructionPointer == exception.frames[i].pc
                 && (e.stackFrames.value[i].symbolInfo.Some? <==> exception.frames[i].symbol.Some?))
  {
  }
}
