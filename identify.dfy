/**
  Identification of the runtime executable (obse64_loader/IdentifyEXE.cpp):
  the version check against the runtime a loader build targets, reading the
  product version, and IdentifyEXE's decision and DLL-suffix derivation.
*/
module Identify {
  import opened Common
  import opened Version
  import opened Scan

  // ---------------------------------------------------------------- build configuration

  /** GET_EXE_VERSION_SUB(RUNTIME_VERSION): which distribution the loader build targets. */
  datatype RuntimeType = Bethesda | GogRuntime | MsStore

  /**
    The compile-time configuration of one loader build.  The packing macro
    MAKE_EXE_VERSION is not part of this model, so it is carried as a function.
  */
  datatype Build = Build(
    runtimeMajor: u16,                   // GET_EXE_VERSION_MAJOR(RUNTIME_VERSION)
    runtimeMinor: u16,                   // GET_EXE_VERSION_MINOR(RUNTIME_VERSION)
    runtimeBuild: u16,                   // GET_EXE_VERSION_BUILD(RUNTIME_VERSION)
    runtimeType: RuntimeType,
    targetingBeta: bool,                 // OBSE_TARGETING_BETA_VERSION
    currentReleaseRuntime: u32,          // CURRENT_RELEASE_RUNTIME
    msStoreRuntimeType: u16,             // RUNTIME_TYPE_MSSTORE
    makeExeVersion: (nat, nat, nat) -> u32,
    coreDataVersion: u32)                // OBSECoreVersionData::kVersion

  function ExpectedProcType(rt: RuntimeType): ProcType
  {
    match rt
    case Bethesda => Steam
    case GogRuntime => GOG
    case MsStore => WinStore
  }

  /** kCurVersion: the targeted runtime in the 64-bit resource format, sub-version 0. */
  function CurrentVersion(b: Build): u64
  {
    PackFields(b.runtimeMajor, b.runtimeMinor, b.runtimeBuild, 0)
  }

  /** `MAKE_EXE_VERSION(version >> 48, version >> 32, version >> 16)`. */
  function PackedVersionOf(b: Build, version: u64): u32
  {
    b.makeExeVersion(version / 0x1_0000_0000_0000, version / 0x1_0000_0000, version / 0x1_0000)
  }

  // ---------------------------------------------------------------- VersionCheck

  /** Which loader error VersionCheck reports, if any. */
  datatype VersionMessage =
    | NoMessage
    | WrongBuild(expected: ProcType, found: ProcType)
    | BetaLoaderOnRelease
    | OutOfDate(updateToBeta: bool)
    | NewerRuntime

  datatype CheckResult = CheckResult(accepted: bool, message: VersionMessage)

  /** Steam and GOG are the only detected types the build-mismatch test looks at. */
  predicate MismatchChecked(t: ProcType)
  {
    t == Steam || t == GOG
  }

  /**
    VersionCheck.  The only rejection is a version other than the targeted one on a
    Steam or GOG executable of the other distribution; an older or newer runtime is
    accepted with an error message.
  */
  function VersionCheck(hook: HookInfo, b: Build): (r: CheckResult)
    ensures !r.accepted <==>
      hook.version != CurrentVersion(b) && MismatchChecked(hook.procType) && hook.procType != ExpectedProcType(b.runtimeType)
    ensures !r.accepted ==> r.message == WrongBuild(ExpectedProcType(b.runtimeType), hook.procType)
    ensures hook.version == CurrentVersion(b) ==> r == CheckResult(true, NoMessage)
    ensures r.accepted && hook.version < CurrentVersion(b) ==>
      r.message == (if b.targetingBeta && PackedVersionOf(b, hook.version) == b.currentReleaseRuntime
                    then BetaLoaderOnRelease else OutOfDate(b.targetingBeta))
    ensures r.accepted && hook.version > CurrentVersion(b) ==> r.message == NewerRuntime
  {
    var cur := CurrentVersion(b);
    var expected := ExpectedProcType(b.runtimeType);
    if hook.version != cur && MismatchChecked(hook.procType) && hook.procType != expected then
      CheckResult(false, WrongBuild(expected, hook.procType))
    else if hook.version < cur then
      if b.targetingBeta && PackedVersionOf(b, hook.version) == b.currentReleaseRuntime
      then CheckResult(true, BetaLoaderOnRelease)
      else CheckResult(true, OutOfDate(b.targetingBeta))
    else if hook.version > cur then CheckResult(true, NewerRuntime)
    else CheckResult(true, NoMessage)
  }

  /** The verdict depends on the version only through whether it is the targeted one. */
  lemma VersionCheckVerdictIgnoresDistance(h1: HookInfo, h2: HookInfo, b: Build)
    requires h1.procType == h2.procType
    requires h1.version == CurrentVersion(b) <==> h2.version == CurrentVersion(b)
    ensures VersionCheck(h1, b).accepted == VersionCheck(h2, b).accepted
  {
  }

  // ---------------------------------------------------------------- GetFileVersionData

  /** What GetFileVersion reads from the version resource of a file. */
  datatype VersionResource = VersionResource(productName: string, productVersion: string)

  /**
    GetFileVersionData: read the resource (None when GetFileVersion fails) and parse its
    product version.  `out` is written only when both succeed; the product name is
    written as soon as the resource is read.
  */
  method GetFileVersionData(resource: Option<VersionResource>, out: u64, outProductName: string)
    returns (ok: bool, newOut: u64, newProductName: string)
    ensures ok <==> resource.Some? && ParseVersion(resource.value.productVersion).Some?
    ensures ok ==> newOut == ParseVersion(resource.value.productVersion).value
    ensures !ok ==> newOut == out
    ensures newProductName == if resource.Some? then resource.value.productName else outProductName
  {
    if resource.None? {
      return false, out, outProductName;
    }
    newProductName := resource.value.productName;
    var version: u64 := 0;
    var parsed;
    parsed, version := VersionStrToInt(resource.value.productVersion, version);
    if !parsed {
      return false, out, newProductName;
    }
    return true, version, newProductName;
  }

  /** The version and product name GetFileVersionData delivers on success. */
  function FileVersionData(resource: Option<VersionResource>): Option<(u64, string)>
  {
    if resource.Some? && ParseVersion(resource.value.productVersion).Some?
    then Some((ParseVersion(resource.value.productVersion).value, resource.value.productName))
    else None
  }

  // ---------------------------------------------------------------- suffix

  /** `"%d_%d_%d"` of getVersionMajor, getVersionMinor and getVersionBuild. */
  function VersionSuffix(version: u64): string
  {
    Joined([Field(version, 3), Field(version, 2), Field(version, 1)], '_')
  }

  /** What the suffix gains for each distribution. */
  function TypeTag(t: ProcType): string
  {
    match t
    case GOG => "_gog"
    case WinStore => "_winstore"
    case _ => ""
  }

  /** The types IdentifyEXE accepts, in the editor and in the game alike. */
  predicate Supported(t: ProcType)
  {
    t == Steam || t == Normal || t == GOG || t == WinStore
  }

  /**
    A suffix tells apart major, minor and build and the GOG / Microsoft Store /
    other distinction: two equal suffixes come from the same three fields and tag.
  */
  lemma SuffixDeterminesVersion(v1: u64, t1: ProcType, v2: u64, t2: ProcType)
    requires VersionSuffix(v1) + TypeTag(t1) == VersionSuffix(v2) + TypeTag(t2)
    ensures Field(v1, 3) == Field(v2, 3) && Field(v1, 2) == Field(v2, 2) && Field(v1, 1) == Field(v2, 1)
    ensures TypeTag(t1) == TypeTag(t2)
  {
    var p1 := [Field(v1, 3), Field(v1, 2), Field(v1, 1)];
    var p2 := [Field(v2, 3), Field(v2, 2), Field(v2, 1)];
    ScanJoined(p1, '_', 1, TypeTag(t1));
    ScanJoined(p2, '_', 1, TypeTag(t2));
    assert p1 == p2;
    var n := |VersionSuffix(v1)|;
    assert TypeTag(t1) == (VersionSuffix(v1) + TypeTag(t1))[n..];
    assert TypeTag(t2) == (VersionSuffix(v2) + TypeTag(t2))[n..];
  }

  // ---------------------------------------------------------------- IdentifyEXE

  /** What IdentifyEXE returns and what it has written through `dllSuffix` and `hookInfo`. */
  datatype Identification = Identification(ok: bool, suffix: string, hook: HookInfo)

  /**
    IdentifyEXE after the version and product name are known: record them, scan the
    executable and decide.  `suffix` and `hook` are the callers' values before the call.
    The type recorded is the scan's (ScanEXE already maps a "WinGDK" path to WinStore).
  */
  function Decide(procName: string, isEditor: bool, version: u64, productName: string, file: FileOutcome,
                  b: Build, suffix: string, hook: HookInfo): (r: Identification)
    ensures r.hook.version == version && r.hook.packedVersion == PackedVersionOf(b, version)
    ensures productName != "OBSE64" && ScanResult(procName, file).Some? ==> r.hook.procType == ScanResult(procName, file).value
    ensures r.ok <==>
      productName != "OBSE64" && ScanResult(procName, file).Some? && Supported(ScanResult(procName, file).value)
    ensures productName == "OBSE64" || ScanResult(procName, file).None? ==> r.suffix == suffix && r.hook.procType == hook.procType
    ensures r.ok && isEditor ==> r.suffix == ""
    ensures !r.ok && isEditor ==> r.suffix == suffix
    ensures r.ok && !isEditor ==> r.suffix == VersionSuffix(version) + TypeTag(ScanResult(procName, file).value)
    ensures ScanResult(procName, file) == Some(Epic) ==> !r.ok && r.suffix == suffix
  {
    var recorded := hook.(version := version, packedVersion := PackedVersionOf(b, version));
    if productName == "OBSE64" then Identification(false, suffix, recorded)
    else match ScanResult(procName, file)
      case None => Identification(false, suffix, recorded)
      case Some(scanned) =>
        var t := if Contains(procName, "WinGDK") then WinStore else scanned;
        var typed := recorded.(procType := t);
        if t == Epic then Identification(false, suffix, typed)
        else if isEditor then Identification(Supported(t), if Supported(t) then "" else suffix, typed)
        else Identification(Supported(t), VersionSuffix(version) + TypeTag(t), typed)
  }

  /** IdentifyEXE as written: for a "WinGDK" path `version` is never assigned. */
  function IdentifyAsWritten(procName: string, isEditor: bool, resource: Option<VersionResource>, file: FileOutcome,
                             b: Build, suffix: string, hook: HookInfo, uninitialised: u64): (r: Identification)
    ensures Contains(procName, "WinGDK") ==> r.ok && r.hook.version == uninitialised && r.hook.procType == WinStore
    ensures !Contains(procName, "WinGDK") && FileVersionData(resource).None? ==> r == Identification(false, suffix, hook)
    ensures !Contains(procName, "WinGDK") && FileVersionData(resource).Some? ==> r.hook.version == FileVersionData(resource).value.0
    ensures r.ok ==> ScanResult(procName, file) == Some(r.hook.procType) && Supported(r.hook.procType)
  {
    if !Contains(procName, "WinGDK") then
      match FileVersionData(resource)
      case None => Identification(false, suffix, hook)
      case Some((version, productName)) => Decide(procName, isEditor, version, productName, file, b, suffix, hook)
    else
      Decide(procName, isEditor, uninitialised, "", file, b, suffix, hook)
  }

  /** The hard-coded Microsoft Store version 0.411.140 with the build's store sub-version. */
  function MsStoreVersion(b: Build): u64
  {
    PackFields(0, 411, 140, b.msStoreRuntimeType)
  }

  const MS_STORE_PRODUCT_NAME: string := "Oblivion Remastered MS"

  /** IdentifyEXE with the Microsoft Store fallback reachable: a "WinGDK" path uses the hard-coded version. */
  function IdentifyCorrected(procName: string, isEditor: bool, resource: Option<VersionResource>, file: FileOutcome,
                    b: Build, suffix: string, hook: HookInfo): (r: Identification)
    ensures Contains(procName, "WinGDK") ==> r.ok && r.hook.version == MsStoreVersion(b) && r.hook.procType == WinStore
    ensures !Contains(procName, "WinGDK") && FileVersionData(resource).None? ==> r == Identification(false, suffix, hook)
    ensures !Contains(procName, "WinGDK") && FileVersionData(resource).Some? ==> r.hook.version == FileVersionData(resource).value.0
    ensures r.ok ==> ScanResult(procName, file) == Some(r.hook.procType) && Supported(r.hook.procType)
  {
    if !Contains(procName, "WinGDK") then
      match FileVersionData(resource)
      case None => Identification(false, suffix, hook)
      case Some((version, productName)) => Decide(procName, isEditor, version, productName, file, b, suffix, hook)
    else
      Decide(procName, isEditor, MsStoreVersion(b), MS_STORE_PRODUCT_NAME, file, b, suffix, hook)
  }

  /** The part of IdentifyEXE after the version is known (the shared tail of both heads). */
  method FinishIdentify(procName: string, isEditor: bool, isMSStore: bool, version: u64, productName: string,
                        file: FileOutcome, b: Build, dllSuffix: string, hookInfo: HookInfo)
    returns (result: bool, suffixOut: string, hookOut: HookInfo)
    requires isMSStore == Contains(procName, "WinGDK")
    ensures Identification(result, suffixOut, hookOut) == Decide(procName, isEditor, version, productName, file, b, dllSuffix, hookInfo)
  {
    suffixOut := dllSuffix;
    hookOut := hookInfo.(version := version, packedVersion := PackedVersionOf(b, version));
    if productName == "OBSE64" {
      return false, suffixOut, hookOut;
    }
    var scanned;
    scanned, hookOut := ScanExe(procName, file, hookOut);
    if !scanned {
      return false, suffixOut, hookOut;
    }
    if isMSStore {
      hookOut := hookOut.(procType := WinStore);
    }
    if hookOut.procType == Epic {
      return false, suffixOut, hookOut;
    }
    result := false;
    if isEditor {
      match hookOut.procType {
        case Steam | Normal | WinStore | GOG =>
          suffixOut := "";
          result := true;
        case _ =>
      }
    } else {
      suffixOut := VersionSuffix(hookOut.version);
      match hookOut.procType {
        case Steam | Normal =>
          result := true;
        case GOG =>
          suffixOut := suffixOut + "_gog";
          result := true;
        case WinStore =>
          suffixOut := suffixOut + "_winstore";
          result := true;
        case _ =>
      }
    }
  }

  /** IdentifyEXE as written: the version-reading step is skipped altogether for a "WinGDK" path. */
  method IdentifyExeAsWritten(procName: string, isEditor: bool, resource: Option<VersionResource>, file: FileOutcome,
                              b: Build, dllSuffix: string, hookInfo: HookInfo, uninitialised: u64)
    returns (result: bool, suffixOut: string, hookOut: HookInfo)
    ensures Identification(result, suffixOut, hookOut) ==
      IdentifyAsWritten(procName, isEditor, resource, file, b, dllSuffix, hookInfo, uninitialised)
  {
    var version: u64 := uninitialised;
    var productName: string := "";
    var isMSStore := Contains(procName, "WinGDK");
    if !isMSStore {
      var read;
      read, version, productName := GetFileVersionData(resource, version, productName);
      if !read {
        // the hard-coded fallback sits here behind `if (isMSStore)`, which is false on this path
        return false, dllSuffix, hookInfo;
      }
    }
    result, suffixOut, hookOut := FinishIdentify(procName, isEditor, isMSStore, version, productName, file, b, dllSuffix, hookInfo);
  }

  /** IdentifyEXE with the Microsoft Store fallback applied to every "WinGDK" path. */
  method IdentifyExe(procName: string, isEditor: bool, resource: Option<VersionResource>, file: FileOutcome,
                     b: Build, dllSuffix: string, hookInfo: HookInfo)
    returns (result: bool, suffixOut: string, hookOut: HookInfo)
    ensures Identification(result, suffixOut, hookOut) == IdentifyCorrected(procName, isEditor, resource, file, b, dllSuffix, hookInfo)
  {
    var version: u64;
    var productName: string;
    var isMSStore := Contains(procName, "WinGDK");
    if isMSStore {
      version := MsStoreVersion(b);
      productName := MS_STORE_PRODUCT_NAME;
    } else {
      var read;
      read, version, productName := GetFileVersionData(resource, 0, "");
      if !read {
        return false, dllSuffix, hookInfo;
      }
    }
    result, suffixOut, hookOut := FinishIdentify(procName, isEditor, isMSStore, version, productName, file, b, dllSuffix, hookInfo);
  }

  // ---------------------------------------------------------------- properties

  /** The editor flag changes the suffix only, never the verdict or the hook info. */
  lemma EditorFlagOnlyChangesSuffix(procName: string, resource: Option<VersionResource>, file: FileOutcome,
                                    b: Build, suffix: string, hook: HookInfo)
    ensures IdentifyCorrected(procName, true, resource, file, b, suffix, hook).ok == IdentifyCorrected(procName, false, resource, file, b, suffix, hook).ok
    ensures IdentifyCorrected(procName, true, resource, file, b, suffix, hook).hook == IdentifyCorrected(procName, false, resource, file, b, suffix, hook).hook
  {
  }

  /** A Packed executable is rejected after the version suffix is already written. */
  lemma RejectedGameTypeStillWritesSuffix(procName: string, version: u64, productName: string, file: FileOutcome,
                                          b: Build, suffix: string, hook: HookInfo)
    requires productName != "OBSE64" && !Contains(procName, "WinGDK")
    requires ScanResult(procName, file) == Some(Packed)
    ensures var r := Decide(procName, false, version, productName, file, b, suffix, hook);
      !r.ok && r.suffix == VersionSuffix(version)
  {
  }

  /** Two accepted game executables share a DLL suffix only if their versions agree in major, minor and build. */
  lemma AcceptedSuffixesSeparateVersions(p1: string, v1: u64, n1: string, f1: FileOutcome,
                                         p2: string, v2: u64, n2: string, f2: FileOutcome,
                                         b: Build, suffix: string, hook: HookInfo)
    requires Decide(p1, false, v1, n1, f1, b, suffix, hook).ok && Decide(p2, false, v2, n2, f2, b, suffix, hook).ok
    requires Decide(p1, false, v1, n1, f1, b, suffix, hook).suffix == Decide(p2, false, v2, n2, f2, b, suffix, hook).suffix
    ensures Field(v1, 3) == Field(v2, 3) && Field(v1, 2) == Field(v2, 2) && Field(v1, 1) == Field(v2, 1)
  {
    var r1 := Decide(p1, false, v1, n1, f1, b, suffix, hook);
    var r2 := Decide(p2, false, v2, n2, f2, b, suffix, hook);
    SuffixDeterminesVersion(v1, r1.hook.procType, v2, r2.hook.procType);
  }

  /**
    As written, a "WinGDK" game executable is accepted with the uninitialised
    `version` recorded and shown in its DLL suffix: garbage values differing in
    major, minor or build give different suffixes.
  */
  lemma AsWrittenStoreVersionIsUninitialised(procName: string, resource: Option<VersionResource>, file: FileOutcome,
                                             b: Build, suffix: string, hook: HookInfo, u1: u64, u2: u64)
    requires Contains(procName, "WinGDK")
    requires Field(u1, 3) != Field(u2, 3) || Field(u1, 2) != Field(u2, 2) || Field(u1, 1) != Field(u2, 1)
    ensures var r1 := IdentifyAsWritten(procName, false, resource, file, b, suffix, hook, u1);
      r1.ok && r1.hook.version == u1 && r1.suffix == VersionSuffix(u1) + "_winstore"
    ensures IdentifyAsWritten(procName, false, resource, file, b, suffix, hook, u1).suffix
         != IdentifyAsWritten(procName, false, resource, file, b, suffix, hook, u2).suffix
  {
    var r1 := IdentifyAsWritten(procName, false, resource, file, b, suffix, hook, u1);
    var r2 := IdentifyAsWritten(procName, false, resource, file, b, suffix, hook, u2);
    if r1.suffix == r2.suffix {
      SuffixDeterminesVersion(u1, r1.hook.procType, u2, r2.hook.procType);
    }
  }

  /**
    With the fallback reachable, a "WinGDK" game executable is identified as the
    Microsoft Store build 0.411.140, whatever its version resource says.
  */
  lemma StoreVersionIsFallback(procName: string, resource: Option<VersionResource>, file: FileOutcome,
                               b: Build, suffix: string, hook: HookInfo)
    requires Contains(procName, "WinGDK")
    ensures var r := IdentifyCorrected(procName, false, resource, file, b, suffix, hook);
      r.ok && r.hook.procType == WinStore && r.hook.version == MsStoreVersion(b) &&
      Field(r.hook.version, 3) == 0 && Field(r.hook.version, 2) == 411 && Field(r.hook.version, 1) == 140 &&
      r.suffix == "0_411_140_winstore"
    ensures IdentifyCorrected(procName, false, resource, file, b, suffix, hook) == IdentifyCorrected(procName, false, None, file, b, suffix, hook)
  {
    assert IdentifyCorrected(procName, false, resource, file, b, suffix, hook)
        == Decide(procName, false, MsStoreVersion(b), MS_STORE_PRODUCT_NAME, file, b, suffix, hook);
    FieldsOfPack(0, 411, 140, b.msStoreRuntimeType);
    StoreSuffixText(b);
  }

  lemma StoreSuffixText(b: Build)
    ensures VersionSuffix(MsStoreVersion(b)) == "0_411_140"
  {
    FieldsOfPack(0, 411, 140, b.msStoreRuntimeType);
    assert Decimal(411) == "411" by {
      assert Decimal(4) == "4";
      assert Decimal(41) == Decimal(4) + "1";
    }
    assert Decimal(140) == "140" by {
      assert Decimal(1) == "1";
      assert Decimal(14) == Decimal(1) + "4";
    }
    assert [0, 411, 140][1..] == [411, 140] && [411, 140][1..] == [140];
    assert Joined([140], '_') == "140";
    assert Joined([411, 140], '_') == "411_140";
  }
}
