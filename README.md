# plcrashutil-cs in Dafny

A model of the core of plcrashutil-cs. The tool reads a PLCrashReporter `.plcrash` file and writes an Apple-style text crash log. The model covers three parts.

- **Building a report** (`PLCrashReport`), in `extraction.dfy` and `crash_report.dfy`.
  - The 8-byte container check: length, the 7-byte ASCII magic `plcrash`, version byte 1.
  - The decoded protobuf message is mapped into the immutable report model. Empty strings become absent values and zero times become "no time". Identifiers are kept only when they have 16 bytes. Threads, frames, registers and images are copied one for one, in order.
  - Processor info is synthesised from the legacy architecture for version 1 reports.
  - `ImageForAddress` scans the images for the first one whose range holds an address, using unchecked 64-bit arithmetic.
- **Formatting the crash log** (`PLCrashReportTextFormatter`), in `formatter.dfy`, with `strings.dfy` and `image_order.dfy` as support.
  - Choosing the code type and with it the 64-bit flag that sets every hex width.
  - The header blocks.
  - The fixed-column frame line.
  - Thread backtraces.
  - The register table, four cells to a row, with `r12` shown as `ip` on ARM.
  - The binary-image list, stable-sorted by base address.
- **The report records and enumerations** (`PLCrashReportInfo`, `PLCrashReportEnums`), in `report_info.dfy` and `enums.dfy`.
  - Every enumeration has an extra case that keeps a raw value the source does not name, because values arrive by unchecked cast.

How the source's constructs map to Dafny:
- C#'s `ulong`, `uint`, `int` and `long` are integer subset types in `ints.dfy`. Their unchecked sums, differences and casts are written out.
- Exceptions the source throws are `Result` failures (`wrappers.dfy`).
- Nullable values are `Option`s.
- The protobuf parser is a parameter of `DecodeCrashData`. Its output is the datatype in `proto.dfy`.
- Date rendering is the parameter `formatDate` of `StringValueForCrashReport`.

Each imperative routine of the source is a method proved equal to a specification function, and the lemmas state what the source promises about those functions. The routines are:
- the container check;
- the array-filling extraction loops;
- the image scan;
- the frame, thread, register and image loops of the formatter.

The `ImageForAddress` scan computes `base + size` with wrap-around (`Models/PLCrashReport.cs:118`). An image whose range runs past the top of the address space therefore holds no address, and the highest address is never matched. The model follows the code, and `OverflowingImageContainsNothing` and `TopAddressHasNoImage` state the consequence.

The formatter's main routine is one long method. Here it appends the blocks in the same order, and each loop is a method of its own:
- `FormatThreads` and `FormatThread` for the threads;
- `FormatFrames` for the frames;
- `FormatRegisterRows` for the register table;
- `FormatImages` for the images.

The frame loop and the register loop are written once, over any renderer (`FormatEach`, `FormatRows`). The frame and register methods pass the source's line renderer to them.

## Model

| member | source | states |
|---|---|---|
| Enums.OperatingSystemFromRaw | Models/PLCrashReportEnums.cs:6-22 | codes 0 to 4 are MacOSX, iPhoneOS, iPhoneSimulator, Unknown and AppleTVOS; any other raw value is kept; the result's code is the raw value |
| Enums.OperatingSystemCodeRoundTrip | Models/PLCrashReportEnums.cs:6-22 | every operating system value survives the cast to its code and back |
| Enums.ArchitectureFromRaw | Models/PLCrashReportEnums.cs:28-50 | codes 0 to 6 are X86_32, X86_64, ARMv6, PPC, PPC64, ARMv7 and Unknown (ARMv7 after PPC64); other values are kept |
| Enums.ArchitectureCodeRoundTrip | Models/PLCrashReportEnums.cs:28-50 | every architecture value survives the cast to its code and back |
| Enums.ProcessorTypeEncodingFromRaw | Models/PLCrashReportEnums.cs:56-63 | 0 is Unknown and 1 is Mach; Mach exactly for raw value 1 |
| Enums.ProcessorTypeEncodingCodeRoundTrip | Models/PLCrashReportEnums.cs:56-63 | every encoding value survives the cast to its code and back |
| ReportInfo.BinaryImageInfo.HasImageUUID | Models/PLCrashReportInfo.cs:330 | true exactly when the UUID is present and not empty |
| ReportInfo.HasImageUUIDTreatsEmptyAsMissing | Models/PLCrashReportInfo.cs:330 | a missing UUID and an empty one both give false; any non-empty UUID gives true |
| ReportInfo.NewExceptionInfo | Models/PLCrashReportInfo.cs:341-349 | the constructor keeps name and reason and, when frames are not supplied, has none |
| Ints.Add | Models/PLCrashReport.cs:118 | the unchecked `ulong` sum: the true sum below 2^64, else the sum less 2^64 |
| Ints.Sub | PLCrashUtilLib/Models/PLCrashReportTextFormatter.cs:371 | the unchecked `ulong` difference: the true difference when not negative, else that plus 2^64 |
| Ints.ToInt64 | Models/PLCrashReport.cs:304 | the `(long)` cast of a `ulong`: congruent modulo 2^64, negative exactly from 2^63 up |
| Ints.ClearBits24To31Keeps | PLCrashUtilLib/Models/PLCrashReportTextFormatter.cs:25-26 | `x & ~0xff000000` keeps bits 0 to 23 and every bit from 32 up, clears bits 24 to 31, never increases `x` |
| Strings.DigitsRoundTrip | PLCrashUtilLib/Models/PLCrashReportTextFormatter.cs:372 | decimal and lower-case hex text of a number read back to that number |
| Strings.DigitsAreMinimal | PLCrashUtilLib/Models/PLCrashReportTextFormatter.cs:372 | the default format writes no leading zero: the first digit is 0 only for zero, and one digit exactly below the radix |
| Strings.DigitsAreDigits | PLCrashUtilLib/Models/PLCrashReportTextFormatter.cs:372 | the default format writes only digit characters |
| Strings.SignedDecimal | PLCrashUtilLib/Models/PLCrashReportTextFormatter.cs:152 | an `int` in decimal starts with `-` exactly when it is negative |
| Strings.SignedDecimalRoundTrip | PLCrashUtilLib/Models/PLCrashReportTextFormatter.cs:152 | the signed decimal text reads back to the number |
| Strings.ZeroPaddedHex | PLCrashUtilLib/Models/PLCrashReportTextFormatter.cs:147 | `x16`/`x8` text is as long as the width, or as the digits when they are longer |
| Strings.ZeroPaddedHexValue | PLCrashUtilLib/Models/PLCrashReportTextFormatter.cs:147 | zero-padded hex text reads back to the number |
| Strings.HexFitsWidth | PLCrashUtilLib/Models/PLCrashReportTextFormatter.cs:384-387 | a number below 16^k needs at most k hex digits |
| Strings.SpacePaddedHex | PLCrashUtilLib/Models/PLCrashReportTextFormatter.cs:264-266 | `{n,W:x}` is the hex digits right-aligned with spaces: spaces first, the digits whole at the end |
| Strings.PadLeftShape | PLCrashUtilLib/Models/PLCrashReportTextFormatter.cs:207 | right alignment puts the fill in front and keeps the text whole, never truncating |
| Strings.PadRightShape | PLCrashUtilLib/Models/PLCrashReportTextFormatter.cs:380 | left alignment keeps the text whole at the start and fills after it |
| Strings.FitWidthShape | PLCrashUtilLib/Models/PLCrashReportTextFormatter.cs:380-382 | pad-then-cut gives exactly the width: a long name cut to its first 35 characters, a short one padded with spaces |
| Strings.FileName | PLCrashUtilLib/Models/PLCrashReportTextFormatter.cs:268 | the file name is the suffix of the path after its last `/`, and holds no `/` |
| Strings.GuidText | Models/PLCrashReport.cs:402 | the `D` text of a GUID is 36 characters with hyphens at 8, 13, 18 and 23 |
| Strings.HexBytesRoundTrip | Models/PLCrashReport.cs:402 | upper-case hex of a byte run reads back to the bytes |
| Strings.GuidTextRoundTrip | Models/PLCrashReport.cs:402 | the 16 bytes can be read back from the GUID text, so distinct UUIDs give distinct texts |
| CrashReport.ImageContaining | Models/PLCrashReport.cs:112-125 | absent exactly when no image contains the address; otherwise the first image in list order that does |
| CrashReport.ImageForAddress | Models/PLCrashReport.cs:112-125 | the scan with early return yields the first containing image, or nothing |
| CrashReport.ImageContainsWithoutOverflow | Models/PLCrashReport.cs:117-118 | when `base + size` does not wrap, the test is the half-open range `[base, base + size)` |
| CrashReport.OverflowingImageContainsNothing | Models/PLCrashReport.cs:117-118 | when `base + size` wraps, no address is attributed to the image |
| CrashReport.TopAddressHasNoImage | Models/PLCrashReport.cs:112-125 | `0xFFFFFFFFFFFFFFFF` never resolves to an image |
| CrashReport.DisjointImagesResolveUniquely | Models/PLCrashReport.cs:112-125 | when no address lies in two images, the result is the image containing the address, whatever the list order |
| Extraction.AsciiString | Models/PLCrashReport.cs:135 | ASCII decoding keeps bytes below 0x80 and turns the rest into `?` |
| Extraction.MagicTextIsMagicBytes | Models/PLCrashReport.cs:134-139 | the text test against `plcrash` is the byte test against its seven ASCII codes |
| Extraction.DecodeCrashData | Models/PLCrashReport.cs:127-156 | under 8 bytes is truncated, before anything else is looked at; a wrong magic is an invalid header; a version byte other than 1 is unsupported and carries the byte; otherwise exactly `data[8..]` goes to the parser and its message is extracted |
| Extraction.UnsupportedVersionMessage | Models/PLCrashReport.cs:145 | the version message ends with the byte in decimal, which reads back to the byte |
| Extraction.OptionalTimestamp | Models/PLCrashReport.cs:214 | zero seconds is no time; a time in the range of `FromUnixTimeSeconds` is kept; any other time fails |
| Extraction.NullIfEmpty | Models/PLCrashReport.cs:225 | absent exactly for the empty string, else the string itself |
| Extraction.SynthesizedProcessorInfo | Models/PLCrashReport.cs:232-271 | the six named legacy architectures give a Mach processor and everything else `(Unknown, 0, 0)`; ARMv6 and ARMv7 are type 12 |
| Extraction.ProcessorFromMessage | Models/PLCrashReport.cs:276-283 | the encoding is the cast of the raw encoding, a valid value whose code is the raw one, and Mach exactly for raw 1; type and subtype are copied |
| Extraction.FramesFromMessages | Models/PLCrashReport.cs:343-359 | one frame per message frame, in order |
| Extraction.ThreadsFromMessages | Models/PLCrashReport.cs:334-378 | one thread per message thread, in order |
| Extraction.ImagesFromMessages | Models/PLCrashReport.cs:380-415 | one image per message image, in order |
| Extraction.ReportUuid | Models/PLCrashReport.cs:160-164 | the report UUID is present exactly when the message's has 16 bytes, and is those bytes |
| Extraction.ExtractThreadInfo | Models/PLCrashReport.cs:334-378 | the nested array-filling loops yield exactly the converted threads, frames and registers |
| Extraction.ExtractImageInfo | Models/PLCrashReport.cs:380-415 | the array-filling loop yields exactly the converted images |
| Extraction.ExtractExceptionInfo | Models/PLCrashReport.cs:417-443 | name and reason are copied; the frames are absent exactly when there are none, otherwise all converted in order |
| Extraction.ExtractInformation | Models/PLCrashReport.cs:158-210 | the sequence of property assignments builds exactly the report the message decodes to |
| Extraction.ExtractionFailure | Models/PLCrashReport.cs:172-182 | building fails exactly when the system time or the process start time is out of range, and the system time is checked first |
| Extraction.ExtractedReportIsNormalized | Models/PLCrashReport.cs:158-210 | a built report has no empty optional strings and no zero times; image UUIDs are 36-character texts; present exception frames and custom data are not empty |
| Extraction.ExtractedReportMirrorsMessage | Models/PLCrashReport.cs:158-210 | optional sections are present exactly when the message has them; the collections keep their lengths; custom data and the UUID follow their presence rules; the signal is copied |
| Extraction.EmptyStringsBecomeAbsent | Models/PLCrashReport.cs:212-315 | each optional string is absent exactly when the message's is empty |
| Extraction.TimestampsKeptUnlessZero | Models/PLCrashReport.cs:214-304 | the system time and start time are absent exactly when zero, else kept (the start time as cast to `long`) |
| Extraction.SystemProcessorRule | Models/PLCrashReport.cs:212-220 | the system processor is the machine info's processor when there is one, else synthesised from the legacy architecture |
| Extraction.ImageUuidRule | Models/PLCrashReport.cs:398-403 | an image has a UUID exactly when its message UUID has 16 bytes, and those bytes read back from the text |
| Extraction.ExceptionFramesRule | Models/PLCrashReport.cs:419-442 | exception frames are absent exactly when the message has none; otherwise each frame, in order, is the converted message frame, with its address and with symbol info exactly when the message frame has a symbol |
| ImageOrder.Insert | PLCrashUtilLib/Models/PLCrashReportTextFormatter.cs:242 | inserting adds exactly one image and keeps all the others |
| ImageOrder.InsertSorted | PLCrashUtilLib/Models/PLCrashReportTextFormatter.cs:242 | inserting into a sorted list keeps it sorted |
| ImageOrder.InsertStable | PLCrashUtilLib/Models/PLCrashReportTextFormatter.cs:242 | inserting puts the image after every image with an equal base address |
| ImageOrder.SortByBaseIsSorted | PLCrashUtilLib/Models/PLCrashReportTextFormatter.cs:242 | the sorted images ascend by base address |
| ImageOrder.SortByBaseIsPermutation | PLCrashUtilLib/Models/PLCrashReportTextFormatter.cs:242 | sorting neither drops nor duplicates an image |
| ImageOrder.SortByBaseIsStable | PLCrashUtilLib/Models/PLCrashReportTextFormatter.cs:242 | images with the same base address keep their report order |
| Formatter.GetArm64CodeType | PLCrashUtilLib/Models/PLCrashReportTextFormatter.cs:297-307 | every ARM64 subtype gives `ARM-64`, 64-bit |
| Formatter.GetAppleCodeType | PLCrashUtilLib/Models/PLCrashReportTextFormatter.cs:284-295 | 32-bit exactly for ARM, X86 and PPC; ARM64 is `ARM-64`; an unlisted type is `Unknown (n)` |
| Formatter.UnknownCodeTypeNamesTheType | PLCrashUtilLib/Models/PLCrashReportTextFormatter.cs:293 | the number in `Unknown (n)` reads back to the CPU type |
| Formatter.MachineProcessor | PLCrashUtilLib/Models/PLCrashReportTextFormatter.cs:56 | present exactly when the report has machine info that records a processor |
| Formatter.MachineProcessorTakesPrecedence | PLCrashUtilLib/Models/PLCrashReportTextFormatter.cs:52-73 | with a machine processor, the system info never affects the code type |
| Formatter.CodeTypeDefaults | PLCrashUtilLib/Models/PLCrashReportTextFormatter.cs:52-73 | a machine processor that is not Mach gives `Unknown`, 64-bit, with no fallback; so does a non-Mach system processor; a 32-bit code type is ARM, X86 or PPC |
| Formatter.LegacyArchitectureCodeTypes | PLCrashUtilLib/Models/PLCrashReportTextFormatter.cs:66-73 | the code type of each legacy architecture, with PPC64 shown as `Unknown (16777234)` |
| Formatter.Arm64ArchNameIgnoresCapabilityBits | PLCrashUtilLib/Models/PLCrashReportTextFormatter.cs:322-332 | the ARM64 name ignores bits 24 to 31 of the subtype, names subtypes 0, 1 and 2 apart, and is `arm64-unknown` exactly above 2 |
| Formatter.GetArchitectureName | PLCrashUtilLib/Models/PLCrashReportTextFormatter.cs:309-320 | `unknown` exactly for the CPU types the table does not list |
| Formatter.OperatingSystemNameRule | PLCrashUtilLib/Models/PLCrashReportTextFormatter.cs:43-50 | exactly the four Apple systems have a name; any other is `Unknown (n)`, and n reads back to its code |
| Formatter.DisplaySymbolName | PLCrashUtilLib/Models/PLCrashReportTextFormatter.cs:355-369 | one leading `_` is dropped exactly when the name is longer than one character and the system is an Apple one |
| Formatter.SymbolStringRule | PLCrashUtilLib/Models/PLCrashReportTextFormatter.cs:338-377 | without symbol info the text is the image base and an offset that never wraps, or `0x0 + 0` without an image; with symbol info the offset from the symbol start is the true difference when the start is not above the instruction pointer |
| Formatter.AddressFieldWidth | PLCrashUtilLib/Models/PLCrashReportTextFormatter.cs:384-387 | the instruction pointer's field is exactly 16 digits when 64-bit, and 8 for a 32-bit value otherwise |
| Formatter.StackFrameColumns | PLCrashUtilLib/Models/PLCrashReportTextFormatter.cs:379-387 | a frame line is the index left-aligned in at least 4 columns, the image name in exactly 35, ` 0x`, the instruction pointer's digits, and a final newline |
| Formatter.FrameLineLayout | PLCrashUtilLib/Models/PLCrashReportTextFormatter.cs:387 | where each piece of an interpolated frame line sits |
| Formatter.FormatEach | PLCrashUtilLib/Models/PLCrashReportTextFormatter.cs:168-172 | the frame loop appends each item's line, with its index, in order |
| Formatter.FormatFrames | PLCrashUtilLib/Models/PLCrashReportTextFormatter.cs:189-193 | a backtrace's text is its frame lines, numbered from 0 |
| Formatter.FirstCrashed | PLCrashUtilLib/Models/PLCrashReportTextFormatter.cs:149 | absent exactly when no thread crashed; otherwise the first crashed thread in order |
| Formatter.ThreadHeaderNamesThread | PLCrashUtilLib/Models/PLCrashReportTextFormatter.cs:180-187 | a thread's header starts with `Thread `, names the thread's number, which reads back, and ends in ` Crashed:` exactly when the thread crashed, otherwise in `:` |
| Formatter.FormatThread | PLCrashUtilLib/Models/PLCrashReportTextFormatter.cs:178-195 | a thread's block is its header, its frame lines and a blank line; `ThreadHeaderNamesThread` states what the header says |
| Formatter.FormatThreads | PLCrashUtilLib/Models/PLCrashReportTextFormatter.cs:176-197 | the thread loop writes every thread's block in order |
| Formatter.RegisterRenameRule | PLCrashUtilLib/Models/PLCrashReportTextFormatter.cs:209-221 | only `r12` is renamed; it is `ip` for ARM and ARM64 machine processors, kept for x86 and PowerPC, and kept without a machine processor |
| Formatter.RenderedAt | PLCrashUtilLib/Models/PLCrashReportTextFormatter.cs:205-223 | the i-th register cell is the i-th register's |
| Formatter.FormatRows | PLCrashUtilLib/Models/PLCrashReportTextFormatter.cs:204-234 | the `regColumn` loop writes the cells four to a row, a newline after each fourth, and one more when the last row is not full |
| Formatter.FormatRegisterRows | PLCrashUtilLib/Models/PLCrashReportTextFormatter.cs:204-234 | the register table is the registers' cells in rows of four |
| Formatter.RowsCount | PLCrashUtilLib/Models/PLCrashReportTextFormatter.cs:225-234 | a table of n cells has n/4 rows, rounded up |
| Formatter.RowsAppend | PLCrashUtilLib/Models/PLCrashReportTextFormatter.cs:225-230 | after whole rows, the rest of the table starts on a fresh row |
| Formatter.TerminatingAddress | PLCrashUtilLib/Models/PLCrashReportTextFormatter.cs:269 | `base + max(1, size) - 1`: the last byte when the range does not wrap, the base for size 0 |
| Formatter.TerminatingAddressIsLastHeld | PLCrashUtilLib/Models/PLCrashReportTextFormatter.cs:269 | for an image below the top of memory the terminating address is held and the next is not |
| Formatter.BinaryDesignator | PLCrashUtilLib/Models/PLCrashReportTextFormatter.cs:252-259 | `+` exactly when there is a process path equal to the image name, otherwise a space |
| Formatter.OneMainExecutableName | PLCrashUtilLib/Models/PLCrashReportTextFormatter.cs:252-259 | two images with different names are never both marked |
| Formatter.ImageArchNameRule | PLCrashUtilLib/Models/PLCrashReportTextFormatter.cs:245-250 | the architecture column is `???` exactly when the code type is missing or not Mach |
| Formatter.FormatImages | PLCrashUtilLib/Models/PLCrashReportTextFormatter.cs:243-279 | the image loop writes one line per sorted image, in order |
| Formatter.OrUnknown | PLCrashUtilLib/Models/PLCrashReportTextFormatter.cs:132-136 | `???` stands in for a null or empty string; any other string is shown as it is |
| Formatter.IncidentIdentifierRule | PLCrashUtilLib/Models/PLCrashReportTextFormatter.cs:82-86 | `???` without a report UUID; otherwise a 36-character text from which the UUID's bytes read back |
| Formatter.ProcessFieldsRule | PLCrashUtilLib/Models/PLCrashReportTextFormatter.cs:92-114 | all five process fields are `???` without process info; the two ids are written in decimal and read back |
| Formatter.CrashedThreadSectionsRule | PLCrashUtilLib/Models/PLCrashReportTextFormatter.cs:149-153 | the `Crashed Thread:` line and the register state are written exactly when a thread crashed |
| Formatter.CrashedThreadLineNamesThread | PLCrashUtilLib/Models/PLCrashReportTextFormatter.cs:152 | the crashed-thread line ends with the thread number, which reads back |
| Formatter.ApplicationSpecificBlockRule | PLCrashUtilLib/Models/PLCrashReportTextFormatter.cs:156-162 | the uncaught-exception block is written exactly when there is exception info |
| Formatter.BacktraceBlockRule | PLCrashUtilLib/Models/PLCrashReportTextFormatter.cs:164-174 | the exception backtrace is written exactly when the exception's frames are present and not empty |
| Formatter.FormatBacktraceBlock | PLCrashUtilLib/Models/PLCrashReportTextFormatter.cs:164-174 | the backtrace section: its heading, the frame lines and a blank line, or nothing |
| Formatter.FormatRegisterBlock | PLCrashUtilLib/Models/PLCrashReportTextFormatter.cs:199-237 | the crashed thread's heading with the code type, its register table and a blank line, or nothing |
| Formatter.StringValueForCrashReport | PLCrashUtilLib/Models/PLCrashReportTextFormatter.cs:35-282 | the appended text is the whole crash log, block by block: header, system, exception codes, application info, backtrace, threads, registers, binary images |

## Left out

- The command-line program (argument parsing, file reading, console output, exit codes) is not part of this model.
- The protobuf parser is a parameter (`Parser`) that gives the decoded message or nothing. The message is a datatype with its schema's required sections (system info, application info, signal) always present.
- The numbering of the protobuf `Architecture` enumeration is taken to be that of `PLCrashReportArchitecture`, which the source casts to (`Models/PLCrashReport.cs:226`). `SynthesizeProcessorInfoFromArchitecture` is therefore given the report enumeration.
- The `DateTime` values are kept as Unix seconds. The only part of their conversion that is modelled is the range check that makes `FromUnixTimeSeconds` throw. Their text, which depends on time zone and culture, comes from the `formatDate` parameter.
- `Environment.NewLine` is fixed as `\n`, the terminator `FormatStackFrame` writes itself.
- Strings.FileName: `Path.GetFileName` is modelled with `/` as the only separator, since the separator set depends on the platform.
- `StringValueForCrashReport`'s `textFormat` parameter has no effect and is not modelled. Neither is the unused `maxThreadNum`.
- Thread numbers are `int` in the payload model, so the `(int)` cast of the thread number has no effect here.
- `FormatStackFrame` is given the report's images and operating system instead of the whole report, since those are all it reads.
- The report is a value built once, not an object with private setters. Its properties are never assigned after construction.
- `FirstOrDefault` and a stable `OrderBy` are the functions `FirstCrashed` and `SortByBase` (an insertion sort), not calls into LINQ.
- Formatter.TerminatingAddress: states the value only when the range does not wrap or the size is 0. In the remaining case the value is the unchecked sum, which the function computes but no ensures spells out.
- Strings.PadLeft, Strings.PadRight, Strings.FitWidth, Formatter.DisplaySymbolName: lengths count Unicode scalar values, not the UTF-16 code units that .NET counts. A name with a character outside the Basic Multilingual Plane is therefore padded and cut at a different column here (the image name's `PadRight(35)` and `Substring(0, 35)`, the register name's `{0,6}`, the symbol's `Length > 1` and `Substring(1)`), and a cut through a surrogate pair, which .NET can make, cannot happen.
- Formatter.DisplaySymbolName: the leading-underscore test is an ordinal comparison, not the culture-sensitive `StartsWith("_")`.
- Strings.Decimal, Strings.SignedDecimal: numbers are written with invariant-culture digits and `-` as the negative sign; the culture-dependent `ToString()` of the thread and process numbers is not modelled.
- Strings.HexBytesValue: reads pairs and drops a trailing odd digit. It is only an inverse for the round-trip lemmas, not a function of the source.
