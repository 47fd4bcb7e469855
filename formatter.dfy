/** `PLCrashReportTextFormatter`: renders a report as an Apple-style crash log.
    Dates are rendered by a caller-supplied `formatDate`, and every line ends
    with `NewLine`. */
module Formatter {
  import opened Ints
  import opened Wrappers
  import opened Strings
  import opened Enums
  import opened ReportInfo
  import opened CrashReport
  import opened ImageOrder
  import Extraction

  // ---------------------------------------------------- Mach CPU constants

  const CpuTypeArm: u64 := 12
  const CpuTypeArm64: u64 := 0x0100000C
  const CpuTypeX86: u64 := 7
  const CpuTypeX86_64: u64 := 0x01000007
  const CpuTypePowerPC: u64 := 18

  const CpuSubtypeArm64All: u64 := 0
  const CpuSubtypeArm64V8: u64 := 1
  const CpuSubtypeArm64E: u64 := 2

  const UnknownString: string := "???"

  /** The CPU types the code-type and architecture tables name. */
  predicate KnownCpuType(cpuType: u64)
  {
    cpuType == CpuTypeArm || cpuType == CpuTypeArm64 || cpuType == CpuTypeX86 ||
    cpuType == CpuTypeX86_64 || cpuType == CpuTypePowerPC
  }

  // ------------------------------------------------------------ code types

  /** An Apple code-type name and whether the architecture is LP64 (64-bit). */
  datatype CodeType = CodeType(name: string, lp64: bool)

  /** Every ARM64 subtype is reported as the same 64-bit code type. */
  function GetArm64CodeType(subtype: u64): (c: CodeType)
    ensures c == CodeType("ARM-64", true)
  {
    var cleanSubtype := ClearBits24To31(subtype);
    if cleanSubtype == CpuSubtypeArm64All then CodeType("ARM-64", true)
    else if cleanSubtype == CpuSubtypeArm64V8 then CodeType("ARM-64", true)
    else if cleanSubtype == CpuSubtypeArm64E then CodeType("ARM-64", true)
    else CodeType("ARM-64", true)
  }

  /** The type is compared exactly (capability bits included); an unlisted
      type is named by its decimal number and assumed to be 64-bit. */
  function GetAppleCodeType(cpuType: u64, subtype: u64): (c: CodeType)
    ensures !c.lp64 <==> cpuType == CpuTypeArm || cpuType == CpuTypeX86 || cpuType == CpuTypePowerPC
    ensures cpuType == CpuTypeArm64 ==> c == CodeType("ARM-64", true)
    ensures !KnownCpuType(cpuType) ==> c.name == "Unknown (" + Decimal(cpuType) + ")"
  {
    if cpuType == CpuTypeArm then CodeType("ARM", false)
    else if cpuType == CpuTypeArm64 then GetArm64CodeType(subtype)
    else if cpuType == CpuTypeX86 then CodeType("X86", false)
    else if cpuType == CpuTypeX86_64 then CodeType("X86-64", true)
    else if cpuType == CpuTypePowerPC then CodeType("PPC", false)
    else CodeType("Unknown (" + Decimal(cpuType) + ")", true)
  }

  /** The number in an unknown code type can be read back. */
  lemma UnknownCodeTypeNamesTheType(cpuType: u64, subtype: u64)
    requires !KnownCpuType(cpuType)
    ensures var name := GetAppleCodeType(cpuType, subtype).name;
      && |name| > 10 && name[..9] == "Unknown (" && name[|name| - 1] == ')'
      && DigitsValue(name[9..|name| - 1], 10) == cpuType
  {
    var name := GetAppleCodeType(cpuType, subtype).name;
    assert name[9..|name| - 1] == Decimal(cpuType);
    DigitsRoundTrip(cpuType, 10);
  }

  /** The processor the code type is read from: the machine info's, when the
      report has machine info that records one. */
  function MachineProcessor(report: Report): (p: Option<ProcessorInfo>)
    ensures p.Some? <==> report.machineInfo.Some? && report.machineInfo.value.processorInfo.Some?
    ensures p.Some? ==> p == report.machineInfo.value.processorInfo
  {
    if report.HasMachineInfo() then report.machineInfo.value.processorInfo else None
  }

  /** The code type of the report: from the machine info's processor when
      there is one (with no fallback if its encoding is not Mach), else from
      the system info's processor; `Unknown` and 64-bit otherwise. */
  function ResolveCodeType(report: Report): CodeType
  {
    match MachineProcessor(report)
    case Some(p) =>
      if p.typeEncoding == Mach then GetAppleCodeType(p.cpuType, p.cpuSubtype) else CodeType("Unknown", true)
    case None =>
      var p := report.systemInfo.processorInfo;
      if p.typeEncoding == Mach then GetAppleCodeType(p.cpuType, p.cpuSubtype) else CodeType("Unknown", true)
  }

  /** A machine-info processor decides the code type alone: the system
      info is then never consulted. */
  lemma MachineProcessorTakesPrecedence(report: Report, systemInfo: SystemInfo)
    requires MachineProcessor(report).Some?
    ensures ResolveCodeType(report.(systemInfo := systemInfo)) == ResolveCodeType(report)
  {
  }

  /** Without a Mach processor anywhere the report is `Unknown` and 64-bit,
      and a 32-bit code type is always one of the three 32-bit families. */
  lemma CodeTypeDefaults(report: Report)
    ensures var c := ResolveCodeType(report);
      && (!c.lp64 ==> c.name == "ARM" || c.name == "X86" || c.name == "PPC")
      && (MachineProcessor(report).Some? && MachineProcessor(report).value.typeEncoding != Mach ==>
            c == CodeType("Unknown", true))
      && (MachineProcessor(report).None? && report.systemInfo.processorInfo.typeEncoding != Mach ==>
            c == CodeType("Unknown", true))
  {
  }

  /** The code types of version 1 reports, whose processor is synthesised
      from the legacy architecture: 64-bit PowerPC has no entry in the
      code-type table and is shown by its number. */
  lemma LegacyArchitectureCodeTypes(report: Report)
    requires MachineProcessor(report).None?
    requires report.systemInfo.processorInfo ==
             Extraction.SynthesizeProcessorInfoFromArchitecture(report.systemInfo.architecture)
    ensures var c := ResolveCodeType(report);
      match report.systemInfo.architecture
      case X86_32 => c == CodeType("X86", false)
      case X86_64 => c == CodeType("X86-64", true)
      case ARMv6 => c == CodeType("ARM", false)
      case ARMv7 => c == CodeType("ARM", false)
      case PPC => c == CodeType("PPC", false)
      case PPC64 => c == CodeType("Unknown (16777234)", true)
      case _ => c == CodeType("Unknown", true)
  {
    if report.systemInfo.architecture == PPC64 {
      Ppc64TypeInDecimal();
    }
  }

  lemma Ppc64TypeInDecimal()
    ensures Decimal(0x01000012) == "16777234"
  {
    assert Digits(1, 10) == "1";
    assert Digits(16, 10) == Digits(1, 10) + "6";
    assert Digits(167, 10) == Digits(16, 10) + "7";
    assert Digits(1677, 10) == Digits(167, 10) + "7";
    assert Digits(16777, 10) == Digits(1677, 10) + "7";
    assert Digits(167772, 10) == Digits(16777, 10) + "2";
    assert Digits(1677723, 10) == Digits(167772, 10) + "3";
    assert Digits(16777234, 10) == Digits(1677723, 10) + "4";
  }

  // ----------------------------------------------------- architecture names

  function GetArm64ArchName(subtype: u64): (name: string)
  {
    var cleanSubtype := ClearBits24To31(subtype);
    if cleanSubtype == CpuSubtypeArm64All then "arm64"
    else if cleanSubtype == CpuSubtypeArm64V8 then "armv8"
    else if cleanSubtype == CpuSubtypeArm64E then "arm64e"
    else "arm64-unknown"
  }

  /** The ARM64 name ignores the capability bits 24 to 31 of the subtype,
      and names the three known subtypes apart. */
  lemma Arm64ArchNameIgnoresCapabilityBits(subtype: u64, capability: nat)
    requires capability < 0x100 && subtype < 0x100_0000
    ensures GetArm64ArchName(subtype + capability * 0x100_0000) == GetArm64ArchName(subtype)
    ensures GetArm64ArchName(0) != GetArm64ArchName(1) && GetArm64ArchName(1) != GetArm64ArchName(2) && GetArm64ArchName(2) != GetArm64ArchName(0)
    ensures GetArm64ArchName(subtype) == "arm64-unknown" <==> subtype > 2
  {
    var x := subtype + capability * 0x100_0000;
    assert x / 0x100_0000 == capability;
    assert ClearBits24To31(x) == subtype;
  }

  /** The image's architecture in the `Binary Images` list. */
  function GetArchitectureName(cpuType: u64, subtype: u64): (name: string)
    ensures name == "unknown" <==> !KnownCpuType(cpuType)
  {
    if cpuType == CpuTypeArm then "armv7"
    else if cpuType == CpuTypeArm64 then GetArm64ArchName(subtype)
    else if cpuType == CpuTypeX86 then "i386"
    else if cpuType == CpuTypeX86_64 then "x86_64"
    else if cpuType == CpuTypePowerPC then "powerpc"
    else "unknown"
  }

  // --------------------------------------------------- operating systems

  /** The operating systems whose symbols carry a leading underscore that
      Apple's reports strip, and that have a name in the header. */
  predicate AppleOperatingSystem(os: OperatingSystem)
  {
    os.MacOSX? || os.IPhoneOS? || os.AppleTVOS? || os.IPhoneSimulator?
  }

  /** The simulator runs on, and is named as, Mac OS X. */
  function OperatingSystemName(os: OperatingSystem): string
  {
    match os
    case MacOSX => "Mac OS X"
    case IPhoneOS => "iPhone OS"
    case IPhoneSimulator => "Mac OS X"
    case AppleTVOS => "Apple tvOS"
    case _ => "Unknown (" + SignedDecimal(OperatingSystemCode(os)) + ")"
  }

  /** Exactly the four Apple systems have a name; any other system is shown
      by its numeric code, which can be read back. */
  lemma OperatingSystemNameRule(os: OperatingSystem)
    ensures var name := OperatingSystemName(os);
      && (AppleOperatingSystem(os) <==> !(|name| >= 9 && name[..9] == "Unknown ("))
      && (!AppleOperatingSystem(os) ==>
            SignedDecimalValue(name[9..|name| - 1]) == OperatingSystemCode(os))
  {
    var name := OperatingSystemName(os);
    if !AppleOperatingSystem(os) {
      var code := SignedDecimal(OperatingSystemCode(os));
      assert name == "Unknown (" + (code + ")");
      assert name[..9] == "Unknown (";
      assert name[9..|name| - 1] == code;
      SignedDecimalRoundTrip(OperatingSystemCode(os));
    } else if os.IPhoneOS? {
      assert name[1] != "Unknown ("[1];
    } else if os.AppleTVOS? {
      assert name[0] != "Unknown ("[0];
    }
  }

  // ---------------------------------------------------------- stack frames

  /** The symbol as shown: Apple strips one leading `_` on its own systems. */
  function DisplaySymbolName(name: string, os: OperatingSystem): (shown: string)
    ensures |name| > 1 && name[0] == '_' && AppleOperatingSystem(os) ==> "_" + shown == name
    ensures !(|name| > 1 && name[0] == '_' && AppleOperatingSystem(os)) ==> shown == name
  {
    if |name| > 1 && name[0] == '_' && AppleOperatingSystem(os) then name[1..] else name
  }

  /** The image column of a frame: the file name of the image holding the
      instruction pointer, or `???`. */
  function FrameImageName(frame: StackFrameInfo, images: seq<BinaryImageInfo>): string
  {
    match ImageContaining(images, frame.instructionPointer)
    case Some(image) => FileName(image.imageName)
    case None => UnknownString
  }

  /** `symbol + offset` when the frame has symbol information, else
      `0x<image base> + <offset in image>`, with base and offset 0 when no
      image holds the instruction pointer. */
  function SymbolString(frame: StackFrameInfo, images: seq<BinaryImageInfo>, os: OperatingSystem): string
  {
    match frame.symbolInfo
    case Some(symbol) =>
      DisplaySymbolName(symbol.symbolName, os) + " + " + Decimal(Sub(frame.instructionPointer, symbol.startAddress))
    case None =>
      var (baseAddress, pcOffset) :=
        match ImageContaining(images, frame.instructionPointer)
        case Some(image) => (image.imageBaseAddress, Sub(frame.instructionPointer, image.imageBaseAddress))
        case None => (0 as u64, 0 as u64);
      "0x" + Hex(baseAddress) + " + " + Decimal(pcOffset)
  }

  /** The offsets are true differences: the symbol's start is below the
      instruction pointer or the offset wraps, and the image offset never
      wraps because an image only holds addresses from its base up. */
  lemma SymbolStringRule(frame: StackFrameInfo, images: seq<BinaryImageInfo>, os: OperatingSystem)
    ensures frame.symbolInfo.None? && ImageContaining(images, frame.instructionPointer).Some? ==>
              var image := ImageContaining(images, frame.instructionPointer).value;
              SymbolString(frame, images, os) ==
                "0x" + Hex(image.imageBaseAddress) + " + " + Decimal(frame.instructionPointer - image.imageBaseAddress)
    ensures frame.symbolInfo.None? && ImageContaining(images, frame.instructionPointer).None? ==>
              SymbolString(frame, images, os) == "0x0 + 0"
    ensures frame.symbolInfo.Some? && frame.symbolInfo.value.startAddress <= frame.instructionPointer ==>
              SymbolString(frame, images, os) ==
                DisplaySymbolName(frame.symbolInfo.value.symbolName, os) + " + " +
                Decimal(frame.instructionPointer - frame.symbolInfo.value.startAddress)
  {
    match frame.symbolInfo
    case Some(symbol) =>
    case None =>
      match ImageContaining(images, frame.instructionPointer)
      case Some(image) =>
        assert image.imageBaseAddress <= frame.instructionPointer;
      case None =>
        assert Hex(0) == "0" && Decimal(0) == "0";
  }

  function IpWidth(lp64: bool): nat
  {
    if lp64 then 16 else 8
  }

  /** One backtrace line: index left-aligned in four columns, the image
      name cut or padded to 35 columns, the instruction pointer in hex. */
  function FormatStackFrame(frame: StackFrameInfo, frameIndex: nat, images: seq<BinaryImageInfo>,
                            os: OperatingSystem, lp64: bool): string
  {
    FrameLine(PadRight(Decimal(frameIndex), 4, ' '), FitWidth(FrameImageName(frame, images), 35),
              ZeroPaddedHex(frame.instructionPointer, IpWidth(lp64)), SymbolString(frame, images, os))
  }

  /** The frame line's interpolation, from its already formatted fields. */
  function FrameLine(index: string, name: string, hex: string, symbol: string): string
  {
    index + (name + (" 0x" + (hex + (" " + symbol + "\n"))))
  }

  /** Where a slice of a concatenation lies in its second part. */
  lemma SliceOfConcat(a: string, b: string, i: nat, j: nat)
    requires i <= j <= |b|
    ensures (a + b)[|a| + i..|a| + j] == b[i..j]
  {
  }

  /** The hex field of an address is exactly as wide as the format asks:
      16 digits for any 64-bit value, 8 for a 32-bit value. */
  lemma AddressFieldWidth(address: u64, lp64: bool)
    ensures lp64 ==> |ZeroPaddedHex(address, IpWidth(lp64))| == 16
    ensures !lp64 && address < 0x1_0000_0000 ==> |ZeroPaddedHex(address, IpWidth(lp64))| == 8
  {
    if lp64 {
      assert Pow16(16) == Two64;
      HexFitsWidth(address, 16);
    } else if address < 0x1_0000_0000 {
      assert Pow16(8) == 0x1_0000_0000;
      HexFitsWidth(address, 8);
    }
  }

  /** The image field follows the index field. */
  lemma FrameLineName(index: string, name: string, hex: string, symbol: string)
    requires |name| == 35
    ensures FrameLine(index, name, hex, symbol)[|index|..|index| + 35] == name
  {
    var r1 := name + (" 0x" + (hex + (" " + symbol + "\n")));
    SliceOfConcat(index, r1, 0, 35);
    assert r1[0..35] == name;
  }

  /** ` 0x` follows the image field. */
  lemma FrameLineSeparator(index: string, name: string, hex: string, symbol: string)
    requires |name| == 35
    ensures FrameLine(index, name, hex, symbol)[|index| + 35..|index| + 38] == " 0x"
  {
    var r2 := " 0x" + (hex + (" " + symbol + "\n"));
    SliceOfConcat(index + name, r2, 0, 3);
    assert r2[0..3] == " 0x";
    assert FrameLine(index, name, hex, symbol) == (index + name) + r2;
  }

  /** The address digits follow ` 0x`. */
  lemma FrameLineHex(index: string, name: string, hex: string, symbol: string)
    requires |name| == 35
    ensures FrameLine(index, name, hex, symbol)[|index| + 38..|index| + 38 + |hex|] == hex
  {
    var r3 := hex + (" " + symbol + "\n");
    SliceOfConcat(index + name + " 0x", r3, 0, |hex|);
    assert r3[0..|hex|] == hex;
    assert FrameLine(index, name, hex, symbol) == (index + name + " 0x") + r3;
  }

  /** Where the pieces of a frame line sit, whatever their contents. */
  lemma FrameLineLayout(index: string, name: string, hex: string, symbol: string)
    requires |name| == 35
    ensures var line := FrameLine(index, name, hex, symbol);
      var k := |index|;
      && |line| == k + 38 + |hex| + |symbol| + 2
      && line[..k] == index
      && line[k..k + 35] == name
      && line[k + 35..k + 38] == " 0x"
      && line[k + 38..k + 38 + |hex|] == hex
      && line[|line| - 1] == '\n'
  {
    FrameLineName(index, name, hex, symbol);
    FrameLineSeparator(index, name, hex, symbol);
    FrameLineHex(index, name, hex, symbol);
  }

  /** The columns of a frame line: the index left-aligned in (at least)
      four columns, the image field in the next 35, then ` 0x` and the
      instruction pointer's hex digits (which read back to it, by
      `ZeroPaddedHexValue`), and a newline at the end. */
  lemma StackFrameColumns(frame: StackFrameInfo, frameIndex: nat, images: seq<BinaryImageInfo>,
                          os: OperatingSystem, lp64: bool)
    ensures var line := FormatStackFrame(frame, frameIndex, images, os, lp64);
      var index := PadRight(Decimal(frameIndex), 4, ' ');
      var hex := ZeroPaddedHex(frame.instructionPointer, IpWidth(lp64));
      var k := |index|;
      && k >= 4 && |line| > k + 38 + |hex|
      && line[..k] == index
      && line[k..k + 35] == FitWidth(FrameImageName(frame, images), 35)
      && line[k + 35..k + 38] == " 0x"
      && line[k + 38..k + 38 + |hex|] == hex
      && line[|line| - 1] == '\n'
  {
    var index := PadRight(Decimal(frameIndex), 4, ' ');
    var name := FitWidth(FrameImageName(frame, images), 35);
    var hex := ZeroPaddedHex(frame.instructionPointer, IpWidth(lp64));
    FrameLineLayout(index, name, hex, SymbolString(frame, images, os));
  }

  /** `render` applied to each of the first `n` items with its index,
      the results joined in order. */
  function Joined<T>(items: seq<T>, render: (T, nat) -> string, n: nat): string
    requires n <= |items|
  {
    if n == 0 then "" else Joined(items, render, n - 1) + render(items[n - 1], n - 1)
  }

  /** A loop that appends each item's text, given its index, in turn. */
  method FormatEach<T>(items: seq<T>, render: (T, nat) -> string) returns (text: string)
    ensures text == Joined(items, render, |items|)
  {
    text := "";
    for i := 0 to |items|
      invariant text == Joined(items, render, i)
    {
      text := text + render(items[i], i);
    }
  }

  function FrameRenderer(images: seq<BinaryImageInfo>, os: OperatingSystem, lp64: bool): (StackFrameInfo, nat) -> string
  {
    (frame: StackFrameInfo, index: nat) => FormatStackFrame(frame, index, images, os, lp64)
  }

  /** A backtrace: one line per frame, numbered from 0. */
  function FramesText(frames: seq<StackFrameInfo>, images: seq<BinaryImageInfo>, os: OperatingSystem, lp64: bool): string
  {
    Joined(frames, FrameRenderer(images, os, lp64), |frames|)
  }

  /** The frame loop shared by the exception backtrace and every thread. */
  method FormatFrames(frames: seq<StackFrameInfo>, images: seq<BinaryImageInfo>, os: OperatingSystem, lp64: bool)
    returns (text: string)
    ensures text == FramesText(frames, images, os, lp64)
  {
    text := FormatEach(frames, FrameRenderer(images, os, lp64));
  }

  // --------------------------------------------------------------- threads

  /** The thread `Crashed` marks, the first one if several do. */
  function FirstCrashed(threads: seq<ThreadInfo>): (r: Option<ThreadInfo>)
    ensures r.None? <==> forall i :: 0 <= i < |threads| ==> !threads[i].crashed
    ensures r.Some? ==> exists k :: 0 <= k < |threads| && r.value == threads[k] && threads[k].crashed &&
                          forall j :: 0 <= j < k ==> !threads[j].crashed
  {
    if threads == [] then None
    else if threads[0].crashed then Some(threads[0])
    else
      var r := FirstCrashed(threads[1..]);
      assert r.Some? ==> exists k :: 0 <= k < |threads| - 1 && r.value == threads[1..][k] && threads[1..][k].crashed &&
                          forall j :: 0 <= j < k ==> !threads[1..][j].crashed;
      r
  }

  function ThreadHeader(thread: ThreadInfo): string
  {
    if thread.crashed then "Thread " + SignedDecimal(thread.threadNumber) + " Crashed:\n"
    else "Thread " + SignedDecimal(thread.threadNumber) + ":\n"
  }

  /** One thread's block: its header, its frames, a blank line. */
  function ThreadBlock(thread: ThreadInfo, images: seq<BinaryImageInfo>, os: OperatingSystem, lp64: bool): string
  {
    ThreadHeader(thread) + FramesText(thread.stackFrames, images, os, lp64) + "\n"
  }

  /** The blocks of the first `n` threads, in order. */
  function ThreadsText(threads: seq<ThreadInfo>, n: nat, images: seq<BinaryImageInfo>,
                       os: OperatingSystem, lp64: bool): string
    requires n <= |threads|
  {
    if n == 0 then "" else ThreadsText(threads, n - 1, images, os, lp64) + ThreadBlock(threads[n - 1], images, os, lp64)
  }

  /** `Thread `, the number's text, the tail: each part can be cut back out. */
  lemma HeaderParts(d: string, tail: string)
    ensures var h := "Thread " + d + tail;
      && |h| == 7 + |d| + |tail| && h[..7] == "Thread " && h[7..|h| - |tail|] == d && h[|h| - |tail|..] == tail
  {
  }

  /** The last character of a signed decimal is a decimal digit. */
  lemma SignedDecimalEndsInDigit(n: int)
    ensures var d := SignedDecimal(n); '0' <= d[|d| - 1] <= '9'
  {
    var m: nat := if n < 0 then -n else n;
    var e := Digits(m, 10);
    if m >= 10 {
      assert e[|e| - 1] == DigitChar(m % 10);
    }
    assert SignedDecimal(n)[|SignedDecimal(n)| - 1] == e[|e| - 1];
  }

  /** A thread's header names the thread's number, which can be read back,
      and ends in ` Crashed:` exactly when the thread crashed. */
  lemma ThreadHeaderNamesThread(thread: ThreadInfo)
    ensures var h := ThreadHeader(thread);
      var tail := if thread.crashed then " Crashed:\n" else ":\n";
      && |h| > 7 + |tail| && h[..7] == "Thread " && h[|h| - |tail|..] == tail
      && SignedDecimalValue(h[7..|h| - |tail|]) == thread.threadNumber
    ensures var h := ThreadHeader(thread);
      thread.crashed <==> |h| >= 10 && h[|h| - 10..] == " Crashed:\n"
  {
    var d := SignedDecimal(thread.threadNumber);
    var tail := if thread.crashed then " Crashed:\n" else ":\n";
    HeaderParts(d, tail);
    SignedDecimalRoundTrip(thread.threadNumber);
    if !thread.crashed {
      var h := "Thread " + d + tail;
      SignedDecimalEndsInDigit(thread.threadNumber);
      assert h[|h| - 3] == d[|d| - 1];
      if |h| >= 10 {
        assert h[|h| - 10..][7] == h[|h| - 3];
      }
    }
  }

  method FormatThread(thread: ThreadInfo, images: seq<BinaryImageInfo>, os: OperatingSystem, lp64: bool)
    returns (block: string)
    ensures block == ThreadBlock(thread, images, os, lp64)
  {
    if thread.crashed {
      block := "Thread " + SignedDecimal(thread.threadNumber) + " Crashed:\n";
    } else {
      block := "Thread " + SignedDecimal(thread.threadNumber) + ":\n";
    }
    var frames := FormatFrames(thread.stackFrames, images, os, lp64);
    block := block + frames + "\n";
  }

  lemma ThreadsTextStep(threads: seq<ThreadInfo>, t: nat, images: seq<BinaryImageInfo>, os: OperatingSystem, lp64: bool)
    requires t < |threads|
    ensures ThreadsText(threads, t + 1, images, os, lp64) == ThreadsText(threads, t, images, os, lp64) + ThreadBlock(threads[t], images, os, lp64)
  {
  }

  method FormatThreads(threads: seq<ThreadInfo>, images: seq<BinaryImageInfo>, os: OperatingSystem, lp64: bool)
    returns (text: string)
    ensures text == ThreadsText(threads, |threads|, images, os, lp64)
  {
    text := "";
    for t := 0 to |threads|
      invariant text == ThreadsText(threads, t, images, os, lp64)
    {
      var block := FormatThread(threads[t], images, os, lp64);
      ThreadsTextStep(threads, t, images, os, lp64);
      text := text + block;
    }
  }

  // ------------------------------------------------------------- registers

  /** Apple calls ARM's `r12` `ip`; the test looks only at the machine
      processor's type with bits 24 to 31 cleared, not at its encoding. */
  function RegisterDisplayName(name: string, machineProcessor: Option<ProcessorInfo>): string
  {
    if machineProcessor.Some? && ClearBits24To31(machineProcessor.value.cpuType) == CpuTypeArm && name == "r12"
    then "ip" else name
  }

  /** Only `r12` is ever renamed, and it is renamed on 32-bit ARM and on
      ARM64 alike, since ARM64's type differs from ARM's only in bit 24. */
  lemma RegisterRenameRule(name: string, machineProcessor: Option<ProcessorInfo>)
    ensures RegisterDisplayName(name, machineProcessor) != name ==> name == "r12"
    ensures machineProcessor.Some? && machineProcessor.value.cpuType in {CpuTypeArm, CpuTypeArm64} ==>
              RegisterDisplayName("r12", machineProcessor) == "ip"
    ensures machineProcessor.Some? && machineProcessor.value.cpuType in {CpuTypeX86, CpuTypeX86_64, CpuTypePowerPC} ==>
              RegisterDisplayName("r12", machineProcessor) == "r12"
    ensures machineProcessor.None? ==> RegisterDisplayName(name, machineProcessor) == name
  {
    assert ClearBits24To31(CpuTypeArm64) == 12;
    assert ClearBits24To31(CpuTypeX86_64) == 7;
  }

  /** One register: the name right-aligned in six columns, then its value in hex. */
  function RegisterCell(register: RegisterInfo, machineProcessor: Option<ProcessorInfo>, lp64: bool): string
  {
    PadLeft(RegisterDisplayName(register.registerName, machineProcessor), 6, ' ')
    + ": 0x" + ZeroPaddedHex(register.registerValue, IpWidth(lp64)) + " "
  }

  /** `render` applied to each of `items`, in order. */
  function Rendered<T>(items: seq<T>, render: T -> string): (cells: seq<string>)
    ensures |cells| == |items|
  {
    if |items| == 0 then [] else Rendered(items[..|items| - 1], render) + [render(items[|items| - 1])]
  }

  /** The `i`-th cell is the `i`-th item's. */
  lemma {:induction false} RenderedAt<T>(items: seq<T>, render: T -> string, i: nat)
    requires i < |items|
    ensures Rendered(items, render)[i] == render(items[i])
    decreases |items|
  {
    if i < |items| - 1 {
      RenderedAt(items[..|items| - 1], render, i);
    }
  }

  function RegisterRenderer(machineProcessor: Option<ProcessorInfo>, lp64: bool): RegisterInfo -> string
  {
    register => RegisterCell(register, machineProcessor, lp64)
  }

  /** The register table's cells, one per register, in order. */
  function RegisterCells(registers: seq<RegisterInfo>, machineProcessor: Option<ProcessorInfo>, lp64: bool): seq<string>
  {
    Rendered(registers, RegisterRenderer(machineProcessor, lp64))
  }

  function Concat(parts: seq<string>): string
  {
    if |parts| == 0 then "" else Concat(parts[..|parts| - 1]) + parts[|parts| - 1]
  }

  /** The register table: four cells to a row, each row ended by a
      newline, the last row as soon as the cells run out. */
  function Rows(cells: seq<string>): string
    decreases |cells|
  {
    if |cells| == 0 then ""
    else if |cells| <= 4 then Concat(cells) + "\n"
    else Concat(cells[..4]) + "\n" + Rows(cells[4..])
  }

  /** Whole rows first: the table of `a + b` is `a`'s table, then `b`'s. */
  lemma {:induction false} RowsAppend(a: seq<string>, b: seq<string>, k: nat)
    requires |a| == 4 * k
    ensures Rows(a + b) == Rows(a) + Rows(b)
    decreases k
  {
    if |a| == 0 {
      assert a + b == b;
    } else if |b| == 0 {
      assert a + b == a;
    } else {
      var ab := a + b;
      assert ab[..4] == a[..4];
      assert ab[4..] == a[4..] + b;
      RowsAppend(a[4..], b, k - 1);
      if |a| == 4 {
        assert a[..4] == a;
        assert a[4..] + b == b;
      }
    }
  }

  lemma ConcatSnoc(cells: seq<string>, from: nat, to: nat)
    requires from <= to < |cells|
    ensures Concat(cells[from..to + 1]) == Concat(cells[from..to]) + cells[to]
  {
    assert cells[from..to + 1][..to - from] == cells[from..to];
  }

  lemma Assoc(a: string, b: string, c: string)
    ensures (a + b) + c == a + (b + c)
  {
  }

  /** The loop's text after one more cell inside a row that is not full. */
  lemma CellAdded(cells: seq<string>, start: nat, i: nat)
    requires start <= i < |cells|
    ensures Rows(cells[..start]) + Concat(cells[start..i]) + cells[i]
            == Rows(cells[..start]) + Concat(cells[start..i + 1])
  {
    ConcatSnoc(cells, start, i);
    Assoc(Rows(cells[..start]), Concat(cells[start..i]), cells[i]);
  }

  /** The fourth cell of a row, and the newline that closes it. */
  lemma RowClosed(cells: seq<string>, start: nat, k: nat, i: nat)
    requires start == 4 * k && i == start + 3 && i < |cells|
    ensures Rows(cells[..start]) + Concat(cells[start..i]) + cells[i] + "\n" == Rows(cells[..i + 1])
  {
    var n := i + 1;
    var done, row := cells[..start], cells[start..n];
    CellAdded(cells, start, i);
    assert Rows(row) == Concat(row) + "\n" by {
      assert |row| == 4;
    }
    Assoc(Rows(done), Concat(row), "\n");
    assert done + row == cells[..n];
    RowsAppend(done, row, k);
  }

  /** A row just begun holds no cells yet. */
  lemma RowStarted(cells: seq<string>, start: nat)
    requires start <= |cells|
    ensures Rows(cells[..start]) + Concat(cells[start..start]) == Rows(cells[..start])
  {
    assert cells[start..start] == [];
  }

  /** When the cells run out after whole rows, nothing more is written. */
  lemma RowsDoneWhole(cells: seq<string>, start: nat)
    requires start == |cells|
    ensures Rows(cells[..start]) + Concat(cells[start..|cells|]) == Rows(cells)
  {
    assert cells[..start] == cells && cells[start..|cells|] == [];
    AppendNothing(Rows(cells));
  }

  /** A last row that is not full still gets its newline. */
  lemma RowsDonePartial(done: seq<string>, rest: seq<string>, k: nat)
    requires |done| == 4 * k && 0 < |rest| < 4
    ensures Rows(done) + Concat(rest) + "\n" == Rows(done + rest)
  {
    RowsAppend(done, rest, k);
    LastRowOnly(rest);
    Assoc(Rows(done), Concat(rest), "\n");
  }

  lemma AppendNothing(s: string)
    ensures s + "" == s
  {
  }

  /** Up to four cells make a single row. */
  lemma LastRowOnly(cells: seq<string>)
    requires 0 < |cells| <= 4
    ensures Rows(cells) == Concat(cells) + "\n"
  {
  }

  /** What the register loop has written once the rows before `start` are
      closed and the cells from `start` to `i` begun the next row. */
  predicate RowsSoFar(text: string, cells: seq<string>, start: nat, i: nat)
    requires start <= i <= |cells|
  {
    text == Rows(cells[..start]) + Concat(cells[start..i])
  }

  lemma NextCell(text: string, cells: seq<string>, start: nat, i: nat, cell: string)
    requires start <= i < |cells| && RowsSoFar(text, cells, start, i) && cells[i] == cell
    ensures RowsSoFar(text + cell, cells, start, i + 1)
  {
    CellAdded(cells, start, i);
  }

  lemma NextRow(text: string, cells: seq<string>, start: nat, k: nat, i: nat, cell: string)
    requires start == 4 * k && i == start + 3 && i < |cells|
    requires RowsSoFar(text, cells, start, i) && cells[i] == cell
    ensures RowsSoFar(text + cell + "\n", cells, i + 1, i + 1)
  {
    RowClosed(cells, start, k, i);
    RowStarted(cells, i + 1);
  }

  lemma LastRow(text: string, cells: seq<string>, start: nat, k: nat)
    requires start == 4 * k && start <= |cells| < start + 4 && RowsSoFar(text, cells, start, |cells|)
    ensures |cells| == start ==> text == Rows(cells)
    ensures |cells| > start ==> text + "\n" == Rows(cells)
  {
    if |cells| == start {
      RowsDoneWhole(cells, start);
    } else {
      assert cells == cells[..start] + cells[start..] && cells[start..|cells|] == cells[start..];
      RowsDonePartial(cells[..start], cells[start..], k);
    }
  }

  /** The register loop, whatever a cell holds: each item rendered, a
      newline after every fourth, and a final newline when the last row is
      not full. */
  method FormatRows<T>(items: seq<T>, render: T -> string) returns (text: string)
    ensures text == Rows(Rendered(items, render))
  {
    ghost var cells := Rendered(items, render);
    ghost var rows := 0;
    text := "";
    var regColumn := 0;
    assert RowsSoFar(text, cells, 0, 0) by {
      assert cells[..0] == [] && cells[0..0] == [];
    }
    for i := 0 to |items|
      invariant regColumn < 4 && i == 4 * rows + regColumn
      invariant RowsSoFar(text, cells, 4 * rows, i)
    {
      var cell := render(items[i]);
      RenderedAt(items, render, i);
      if regColumn == 3 {
        NextRow(text, cells, 4 * rows, rows, i, cell);
      } else {
        NextCell(text, cells, 4 * rows, i, cell);
      }
      text := text + cell;
      regColumn := regColumn + 1;
      if regColumn == 4 {
        text := text + "\n";
        regColumn := 0;
        rows := rows + 1;
      }
    }
    LastRow(text, cells, 4 * rows, rows);
    if regColumn != 0 {
      text := text + "\n";
    }
  }

  /** The registers of the crashed thread, four to a row. */
  method FormatRegisterRows(registers: seq<RegisterInfo>, machineProcessor: Option<ProcessorInfo>, lp64: bool)
    returns (text: string)
    ensures text == Rows(RegisterCells(registers, machineProcessor, lp64))
  {
    text := FormatRows(registers, RegisterRenderer(machineProcessor, lp64));
  }

  function CountNewlines(s: string): nat
  {
    if |s| == 0 then 0 else CountNewlines(s[..|s| - 1]) + (if s[|s| - 1] == '\n' then 1 else 0)
  }

  lemma {:induction false} CountNewlinesAppend(a: string, b: string)
    ensures CountNewlines(a + b) == CountNewlines(a) + CountNewlines(b)
    decreases |b|
  {
    if |b| == 0 {
      assert a + b == a;
    } else {
      assert (a + b)[..|a + b| - 1] == a + b[..|b| - 1];
      CountNewlinesAppend(a, b[..|b| - 1]);
    }
  }

  lemma {:induction false} ConcatHasNoNewline(parts: seq<string>)
    requires forall i :: 0 <= i < |parts| ==> '\n' !in parts[i]
    ensures '\n' !in Concat(parts)
    decreases |parts|
  {
    if |parts| > 0 {
      ConcatHasNoNewline(parts[..|parts| - 1]);
    }
  }

  lemma {:induction false} NoNewlineCountsZero(s: string)
    requires '\n' !in s
    ensures CountNewlines(s) == 0
    decreases |s|
  {
    if |s| > 0 {
      assert s[..|s| - 1] <= s;
      NoNewlineCountsZero(s[..|s| - 1]);
    }
  }

  /** A table of `n` cells has `n / 4` rows, rounded up. */
  lemma {:induction false} RowsCount(cells: seq<string>)
    requires forall i :: 0 <= i < |cells| ==> '\n' !in cells[i]
    ensures CountNewlines(Rows(cells)) == (|cells| + 3) / 4
    decreases |cells|
  {
    if |cells| > 0 {
      var row := if |cells| <= 4 then cells else cells[..4];
      ConcatHasNoNewline(row);
      NoNewlineCountsZero(Concat(row));
      CountNewlinesAppend(Concat(row), "\n");
      assert CountNewlines("\n") == 1 by { assert "\n"[..0] == ""; }
      if |cells| > 4 {
        RowsCount(cells[4..]);
        CountNewlinesAppend(Concat(row) + "\n", Rows(cells[4..]));
      }
    }
  }

  /** The crashed thread's register state, or nothing when no thread crashed. */
  function RegisterBlock(report: Report, codeType: CodeType): string
  {
    match FirstCrashed(report.threads)
    case None => ""
    case Some(thread) =>
      "Thread " + SignedDecimal(thread.threadNumber) + " crashed with " + codeType.name + " Thread State:\n"
      + Rows(RegisterCells(thread.registers, MachineProcessor(report), codeType.lp64)) + "\n"
  }

  // ---------------------------------------------------------------- images

  /** The image's last address, `base + max(1, size) - 1` in unchecked arithmetic. */
  function TerminatingAddress(image: BinaryImageInfo): (r: u64)
    ensures image.imageSize > 0 && image.imageBaseAddress + image.imageSize <= Two64 ==>
              r == image.imageBaseAddress + image.imageSize - 1
    ensures image.imageSize == 0 ==> r == image.imageBaseAddress
  {
    Sub(Add(image.imageBaseAddress, if image.imageSize < 1 then 1 else image.imageSize), 1)
  }

  /** For an image that does not reach the top of the address space, the
      terminating address is the last one the image holds. */
  lemma TerminatingAddressIsLastHeld(image: BinaryImageInfo)
    requires image.imageSize > 0 && image.imageBaseAddress + image.imageSize < Two64
    ensures ImageContains(image, TerminatingAddress(image))
    ensures !ImageContains(image, TerminatingAddress(image) + 1)
  {
  }

  /** The path of the main executable: the process path, when the report has process info. */
  function MainExecutablePath(report: Report): Option<string>
  {
    if report.HasProcessInfo() then report.processInfo.value.processPath else None
  }

  /** `+` marks the main executable, the image whose name is the process path. */
  function BinaryDesignator(image: BinaryImageInfo, mainPath: Option<string>): (d: string)
    ensures d == "+" <==> mainPath == Some(image.imageName)
    ensures d == "+" || d == " "
  {
    if mainPath.Some? && image.imageName == mainPath.value then "+" else " "
  }

  /** Two images with different names are never both marked as the main executable. */
  lemma OneMainExecutableName(a: BinaryImageInfo, b: BinaryImageInfo, mainPath: Option<string>)
    requires a.imageName != b.imageName
    ensures BinaryDesignator(a, mainPath) == " " || BinaryDesignator(b, mainPath) == " "
  {
  }

  function ImageArchName(image: BinaryImageInfo): string
  {
    match image.codeType
    case Some(p) => if p.typeEncoding == Mach then GetArchitectureName(p.cpuType, p.cpuSubtype) else UnknownString
    case None => UnknownString
  }

  /** `base - end [+]file arch  <uuid> path`, the addresses right-aligned in
      16 or 8 columns; a missing UUID shows as `???`. */
  function ImageLine(image: BinaryImageInfo, mainPath: Option<string>, lp64: bool): string
  {
    var w := IpWidth(lp64);
    var uuid := if image.imageUUID.Some? then image.imageUUID.value else UnknownString;
    "0x" + SpacePaddedHex(image.imageBaseAddress, w) + " - 0x" + SpacePaddedHex(TerminatingAddress(image), w) + " "
    + BinaryDesignator(image, mainPath) + FileName(image.imageName) + " " + ImageArchName(image)
    + "  <" + uuid + "> " + image.imageName + "\n"
  }

  function ImagesText(images: seq<BinaryImageInfo>, n: nat, mainPath: Option<string>, lp64: bool): string
    requires n <= |images|
  {
    if n == 0 then "" else ImagesText(images, n - 1, mainPath, lp64) + ImageLine(images[n - 1], mainPath, lp64)
  }

  method FormatImages(sortedImages: seq<BinaryImageInfo>, mainPath: Option<string>, lp64: bool)
    returns (text: string)
    ensures text == ImagesText(sortedImages, |sortedImages|, mainPath, lp64)
  {
    text := "";
    for i := 0 to |sortedImages|
      invariant text == ImagesText(sortedImages, i, mainPath, lp64)
    {
      var imageInfo := sortedImages[i];
      text := text + ImageLine(imageInfo, mainPath, lp64);
    }
  }

  // ---------------------------------------------------------- the header

  /** A nullable string, or `???` when null or empty. */
  function OrUnknown(s: Option<string>): (r: string)
    ensures IsNullOrEmpty(s) ==> r == UnknownString
    ensures !IsNullOrEmpty(s) ==> r == s.value && |r| > 0
  {
    if IsNullOrEmpty(s) then UnknownString else s.value
  }

  function IncidentIdentifier(report: Report): string
  {
    if report.uuidRef.Some? then GuidText(report.uuidRef.value) else UnknownString
  }

  function HardwareModel(report: Report): string
  {
    if report.HasMachineInfo() then OrUnknown(report.machineInfo.value.modelName) else UnknownString
  }

  function VersionString(app: ApplicationInfo): string
  {
    if IsNullOrEmpty(app.applicationMarketingVersion)
    then app.applicationVersion
    else app.applicationMarketingVersion.value + " (" + app.applicationVersion + ")"
  }

  /** Process name, pid, path, parent name and parent pid; all `???` without process info. */
  function ProcessFields(report: Report): (fields: (string, string, string, string, string))
  {
    match report.processInfo
    case None => (UnknownString, UnknownString, UnknownString, UnknownString, UnknownString)
    case Some(p) =>
      (OrUnknown(p.processName), Decimal(p.processID), OrUnknown(p.processPath),
       OrUnknown(p.parentProcessName), Decimal(p.parentProcessID))
  }

  function HeaderBlock(report: Report, codeType: CodeType): string
  {
    var (processName, processId, processPath, parentProcessName, parentProcessId) := ProcessFields(report);
    "Incident Identifier: " + IncidentIdentifier(report) + "\n"
    + "Hardware Model:      " + HardwareModel(report) + "\n"
    + "Process:         " + processName + " [" + processId + "]\n"
    + "Path:            " + processPath + "\n"
    + "Identifier:      " + report.applicationInfo.applicationIdentifier + "\n"
    + "Version:         " + VersionString(report.applicationInfo) + "\n"
    + "Code Type:       " + codeType.name + "\n"
    + "Parent Process:  " + parentProcessName + " [" + parentProcessId + "]\n"
    + "\n"
  }

  function SystemBlock(report: Report, formatDate: i64 -> string): string
  {
    var timestamp := match report.systemInfo.timestamp case Some(t) => formatDate(t) case None => UnknownString;
    "Date/Time:       " + timestamp + "\n"
    + "OS Version:      " + OperatingSystemName(report.systemInfo.operatingSystem) + " "
    + report.systemInfo.operatingSystemVersion + " (" + OrUnknown(report.systemInfo.operatingSystemBuild) + ")\n"
    + "Report Version:  104\n"
    + "\n"
  }

  function CrashedThreadLine(report: Report): string
  {
    match FirstCrashed(report.threads)
    case Some(thread) => "Crashed Thread:  " + SignedDecimal(thread.threadNumber) + "\n"
    case None => ""
  }

  function ExceptionCodesBlock(report: Report): string
  {
    "Exception Type:  " + report.signalInfo.name + "\n"
    + "Exception Codes: " + report.signalInfo.code + " at 0x" + ZeroPaddedHex(report.signalInfo.address, 16) + "\n"
    + CrashedThreadLine(report)
    + "\n"
  }

  function ApplicationSpecificBlock(report: Report): string
  {
    match report.exceptionInfo
    case Some(e) =>
      "Application Specific Information:\n"
      + "*** Terminating app due to uncaught exception '" + e.exceptionName + "', reason: '" + e.exceptionReason + "'\n"
      + "\n"
    case None => ""
  }

  /** Whether the report carries an uncaught exception's frames to print. */
  predicate HasExceptionBacktrace(report: Report)
  {
    report.exceptionInfo.Some? && report.exceptionInfo.value.stackFrames.Some? &&
    |report.exceptionInfo.value.stackFrames.value| > 0
  }

  function BacktraceBlock(report: Report, lp64: bool): string
  {
    if HasExceptionBacktrace(report) then
      var frames := report.exceptionInfo.value.stackFrames.value;
      "Last Exception Backtrace:\n"
      + FramesText(frames, report.images, report.systemInfo.operatingSystem, lp64) + "\n"
    else ""
  }

  // ---------------------------------------------------------- the whole log

  /** The complete crash log, block by block in the order it is written. */
  function CrashLogText(report: Report, formatDate: i64 -> string): string
  {
    var codeType := ResolveCodeType(report);
    var sorted := SortByBase(report.images);
    HeaderBlock(report, codeType) + SystemBlock(report, formatDate) + ExceptionCodesBlock(report)
    + ApplicationSpecificBlock(report) + BacktraceBlock(report, codeType.lp64)
    + ThreadsText(report.threads, |report.threads|, report.images, report.systemInfo.operatingSystem, codeType.lp64)
    + RegisterBlock(report, codeType)
    + "Binary Images:\n" + ImagesText(sorted, |sorted|, MainExecutablePath(report), codeType.lp64)
  }

  /** The crashed-thread line and the register state are written exactly
      when a thread crashed. */
  lemma CrashedThreadSectionsRule(report: Report, codeType: CodeType)
    ensures |CrashedThreadLine(report)| == 0 <==> FirstCrashed(report.threads).None?
    ensures |RegisterBlock(report, codeType)| == 0 <==> FirstCrashed(report.threads).None?
  {
    if FirstCrashed(report.threads).Some? {
      assert |CrashedThreadLine(report)| > 0;
      assert |RegisterBlock(report, codeType)| > 0;
    }
  }

  /** The uncaught-exception block is written exactly when there is exception info. */
  lemma ApplicationSpecificBlockRule(report: Report)
    ensures |ApplicationSpecificBlock(report)| == 0 <==> report.exceptionInfo.None?
  {
  }

  /** The exception backtrace is written exactly when the exception has frames. */
  lemma BacktraceBlockRule(report: Report, lp64: bool)
    ensures |BacktraceBlock(report, lp64)| == 0 <==> !HasExceptionBacktrace(report)
  {
  }

  /** The crashed-thread line names the thread's number, which can be read back. */
  lemma CrashedThreadLineNamesThread(report: Report)
    requires FirstCrashed(report.threads).Some?
    ensures var line := CrashedThreadLine(report);
      var prefix := "Crashed Thread:  ";
      && |line| > |prefix| + 1 && line[..|prefix|] == prefix && line[|line| - 1] == '\n'
      && SignedDecimalValue(line[|prefix|..|line| - 1]) == FirstCrashed(report.threads).value.threadNumber
  {
    var n := FirstCrashed(report.threads).value.threadNumber;
    var line := CrashedThreadLine(report);
    assert line[17..|line| - 1] == SignedDecimal(n);
    SignedDecimalRoundTrip(n);
  }

  /** An image's architecture column is `???` exactly when its code type is
      missing or not a Mach one. */
  lemma ImageArchNameRule(image: BinaryImageInfo)
    ensures ImageArchName(image) == UnknownString <==>
              image.codeType.None? || image.codeType.value.typeEncoding != Mach
  {
  }

  /** The incident identifier is the report UUID's text, from which its 16
      bytes can be read back, or `???` without one. */
  lemma IncidentIdentifierRule(report: Report)
    ensures report.uuidRef.None? ==> IncidentIdentifier(report) == UnknownString
    ensures report.uuidRef.Some? ==>
              |IncidentIdentifier(report)| == 36 && GuidBytes(IncidentIdentifier(report)) == report.uuidRef.value
  {
    if report.uuidRef.Some? {
      GuidTextRoundTrip(report.uuidRef.value);
    }
  }

  /** Without process info all five process fields are `???`; with it the
      two process ids are written in decimal and read back to the ids. */
  lemma ProcessFieldsRule(report: Report)
    ensures report.processInfo.None? ==>
              ProcessFields(report) == (UnknownString, UnknownString, UnknownString, UnknownString, UnknownString)
    ensures report.processInfo.Some? ==>
              var (_, processId, _, _, parentProcessId) := ProcessFields(report);
              && DigitsValue(processId, 10) == report.processInfo.value.processID
              && DigitsValue(parentProcessId, 10) == report.processInfo.value.parentProcessID
  {
    if report.processInfo.Some? {
      DigitsRoundTrip(report.processInfo.value.processID, 10);
      DigitsRoundTrip(report.processInfo.value.parentProcessID, 10);
    }
  }

  /** The backtrace section: printed only when the exception carries frames. */
  method FormatBacktraceBlock(report: Report, lp64: bool) returns (block: string)
    ensures block == BacktraceBlock(report, lp64)
  {
    block := "";
    if report.exceptionInfo.Some? && report.exceptionInfo.value.stackFrames.Some? &&
       |report.exceptionInfo.value.stackFrames.value| > 0 {
      var frames := FormatFrames(report.exceptionInfo.value.stackFrames.value, report.images,
                                 report.systemInfo.operatingSystem, lp64);
      block := "Last Exception Backtrace:\n" + frames + "\n";
    }
  }

  /** The crashed thread's register table, when a thread crashed. */
  method FormatRegisterBlock(report: Report, codeType: CodeType) returns (block: string)
    ensures block == RegisterBlock(report, codeType)
  {
    block := "";
    var crashedThread := FirstCrashed(report.threads);
    if crashedThread.Some? {
      var rows := FormatRegisterRows(crashedThread.value.registers, MachineProcessor(report), codeType.lp64);
      block := "Thread " + SignedDecimal(crashedThread.value.threadNumber) + " crashed with "
               + codeType.name + " Thread State:\n" + rows + "\n";
    }
  }

  /** `StringValueForCrashReport`: appends the blocks in order, with a loop
      for each list the log prints. */
  method StringValueForCrashReport(report: Report, formatDate: i64 -> string) returns (text: string)
    ensures text == CrashLogText(report, formatDate)
  {
    var codeType := ResolveCodeType(report);
    var lp64 := codeType.lp64;
    text := HeaderBlock(report, codeType) + SystemBlock(report, formatDate) + ExceptionCodesBlock(report)
            + ApplicationSpecificBlock(report);
    var backtrace := FormatBacktraceBlock(report, lp64);
    text := text + backtrace;
    var threads := FormatThreads(report.threads, report.images, report.systemInfo.operatingSystem, lp64);
    text := text + threads;
    var registers := FormatRegisterBlock(report, codeType);
    text := text + registers;
    text := text + "Binary Images:\n";
    var sortedImages := SortByBase(report.images);
    var images := FormatImages(sortedImages, MainExecutablePath(report), lp64);
    text := text + images;
  }
}
