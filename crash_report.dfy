/** The decoded report (`PLCrashReport`): all its properties are set once,
    while it is built, and never again, so it is a value here. This module
    also holds the container constants and the address-to-image query. */
module CrashReport {
  import opened Ints
  import opened Wrappers
  import opened ReportInfo

  /** The container's first seven bytes, as ASCII text. */
  const FileMagic: string := "plcrash"
  /** The only container format version understood. */
  const FileVersion: byte := 1

  datatype Report = Report(
    systemInfo: SystemInfo,
    machineInfo: Option<MachineInfo>,
    applicationInfo: ApplicationInfo,
    processInfo: Option<ProcessInfo>,
    signalInfo: SignalInfo,
    machExceptionInfo: Option<MachExceptionInfo>,
    threads: seq<ThreadInfo>,
    images: seq<BinaryImageInfo>,
    exceptionInfo: Option<ExceptionInfo>,
    customData: Option<seq<byte>>,
    uuidRef: Option<Guid>)
  {
    predicate HasMachineInfo() { machineInfo.Some? }
    predicate HasProcessInfo() { processInfo.Some? }
    predicate HasExceptionInfo() { exceptionInfo.Some? }
  }

  /** What the extractor guarantees of every report it builds: empty
      strings and zero times are absent rather than present-but-empty,
      an image's UUID is a 36-character text, present exception frames and
      custom data are never empty. */
  ghost predicate Normalized(r: Report)
  {
    && r.systemInfo.operatingSystemBuild != Some("")
    && r.systemInfo.timestamp != Some(0)
    && (r.machineInfo.Some? ==> r.machineInfo.value.modelName != Some(""))
    && r.applicationInfo.applicationMarketingVersion != Some("")
    && (r.processInfo.Some? ==>
          var p := r.processInfo.value;
          p.processName != Some("") && p.processPath != Some("") &&
          p.parentProcessName != Some("") && p.processStartTime != Some(0))
    && (forall i :: 0 <= i < |r.images| ==>
          r.images[i].imageUUID.Some? ==> |r.images[i].imageUUID.value| == 36)
    && (r.exceptionInfo.Some? && r.exceptionInfo.value.stackFrames.Some? ==>
          |r.exceptionInfo.value.stackFrames.value| > 0)
    && (r.customData.Some? ==> |r.customData.value| > 0)
  }

  // ------------------------------------------------------ address resolver

  /** The test the scan applies: `base <= address < base + size`, the sum
      taken in unchecked 64-bit arithmetic. */
  predicate ImageContains(image: BinaryImageInfo, address: u64)
  {
    image.imageBaseAddress <= address < Add(image.imageBaseAddress, image.imageSize)
  }

  /** The first image, in list order, that contains `address`. */
  function ImageContaining(images: seq<BinaryImageInfo>, address: u64): (r: Option<BinaryImageInfo>)
    ensures r.None? <==> forall i :: 0 <= i < |images| ==> !ImageContains(images[i], address)
    ensures r.Some? ==> exists k :: 0 <= k < |images| && r.value == images[k] &&
                          ImageContains(images[k], address) &&
                          forall j :: 0 <= j < k ==> !ImageContains(images[j], address)
  {
    if images == [] then None
    else if ImageContains(images[0], address) then Some(images[0])
    else
      var r := ImageContaining(images[1..], address);
      assert r.Some? ==> exists k :: 0 <= k < |images| - 1 && r.value == images[1..][k] &&
                          ImageContains(images[1..][k], address) &&
                          forall j :: 0 <= j < k ==> !ImageContains(images[1..][j], address);
      r
  }

  /** `ImageForAddress`: a scan over the images that returns at the first hit. */
  method ImageForAddress(report: Report, address: u64) returns (r: Option<BinaryImageInfo>)
    ensures r == ImageContaining(report.images, address)
  {
    var images := report.images;
    for i := 0 to |images|
      invariant ImageContaining(images, address) == ImageContaining(images[i..], address)
    {
      var imageInfo := images[i];
      var normalizedBaseAddress := imageInfo.imageBaseAddress;
      if normalizedBaseAddress <= address && address < Add(normalizedBaseAddress, imageInfo.imageSize) {
        return Some(imageInfo);
      }
      assert images[i..][1..] == images[i + 1..];
    }
    return None;
  }

  /** Without wrap-around the test is the true half-open range. */
  lemma ImageContainsWithoutOverflow(image: BinaryImageInfo, address: u64)
    requires image.imageBaseAddress + image.imageSize < Two64
    ensures ImageContains(image, address) <==>
      image.imageBaseAddress <= address < image.imageBaseAddress + image.imageSize
  {
  }

  /** An image whose range runs past the top of the address space has a
      wrapped end below its base: no address is ever attributed to it. */
  lemma OverflowingImageContainsNothing(image: BinaryImageInfo, address: u64)
    requires image.imageBaseAddress + image.imageSize >= Two64
    ensures !ImageContains(image, address)
  {
  }

  /** The highest address is never attributed to any image. */
  lemma TopAddressHasNoImage(images: seq<BinaryImageInfo>)
    ensures ImageContaining(images, 0xFFFF_FFFF_FFFF_FFFF) == None
  {
  }

  /** When no address lies in two images, the list order does not matter:
      the image found is the one image that contains the address. */
  lemma DisjointImagesResolveUniquely(images: seq<BinaryImageInfo>, address: u64, image: BinaryImageInfo)
    requires forall i, j :: 0 <= i < j < |images| ==>
               !(ImageContains(images[i], address) && ImageContains(images[j], address))
    ensures ImageContaining(images, address) == Some(image) <==>
              image in images && ImageContains(image, address)
  {
    if image in images && ImageContains(image, address) {
      var m :| 0 <= m < |images| && images[m] == image;
      var r := ImageContaining(images, address);
      var k :| 0 <= k < |images| && r.value == images[k] && ImageContains(images[k], address);
      assert k == m;
    }
  }
}
