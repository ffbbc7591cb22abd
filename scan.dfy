/**
  Classification of the runtime executable into a distribution variant
  (obse64_loader/IdentifyEXE.cpp, the Is*Image probes and ScanEXE).
*/
module Scan {
  import opened Common
  import opened PeImage

  /** kProcType_*: the distribution variant of the runtime. */
  datatype ProcType = Unknown | Steam | Normal | Packed | WinStore | GOG | Epic

  /** The fields of ProcHookInfo that the identification writes. */
  datatype HookInfo = HookInfo(procType: ProcType, version: u64, packedVersion: u32)

  const APPNOTIFY_DLL: string := "api-ms-win-core-psm-appnotify-l1-1-0.dll"
  const GALAXY_DLL: string := "Galaxy64.dll"
  const EOS_DLL: string := "eossdk-win64-shipping.dll"

  const ERROR_ACCESS_DENIED: u32 := 5

  // ---------------------------------------------------------------- probes

  /** IsSteamImage: the Steam wrapper adds a `.bind` section. */
  method IsSteamImage(img: Image) returns (r: bool)
    ensures r == HasSection(img, ".bind")
  {
    var section := GetImageSection(img, ".bind");
    r := section.Some?;
  }

  /** IsUPXImage: UPX-packed images have a `UPX0` section. */
  method IsUpxImage(img: Image) returns (r: bool)
    ensures r == HasSection(img, "UPX0")
  {
    var section := GetImageSection(img, "UPX0");
    r := section.Some?;
  }

  method IsWinStoreImage(img: Image) returns (r: bool)
    ensures r == ImportsLibrary(img, APPNOTIFY_DLL)
  {
    r := HasImportedLibrary(img, APPNOTIFY_DLL);
  }

  method IsGogImage(img: Image) returns (r: bool)
    ensures r == ImportsLibrary(img, GALAXY_DLL)
  {
    r := HasImportedLibrary(img, GALAXY_DLL);
  }

  method IsEpicImage(img: Image) returns (r: bool)
    ensures r == ImportsLibrary(img, EOS_DLL)
  {
    r := HasImportedLibrary(img, EOS_DLL);
  }

  // ---------------------------------------------------------------- reference classification

  /** A marker of a distribution variant in the image. */
  datatype Marker = SectionNamed(section: string) | ImportsDll(dll: string)

  predicate Holds(img: Image, m: Marker)
  {
    match m
    case SectionNamed(s) => HasSection(img, s)
    case ImportsDll(d) => ImportsLibrary(img, d)
  }

  /** The markers in order of precedence, each with the variant it indicates. */
  const SCAN_ORDER: seq<(Marker, ProcType)> := [
    (SectionNamed("UPX0"), Packed),
    (SectionNamed(".bind"), Steam),
    (ImportsDll(APPNOTIFY_DLL), WinStore),
    (ImportsDll(GALAXY_DLL), GOG),
    (ImportsDll(EOS_DLL), Epic)
  ]

  /** The variant of the first marker in `order` that the image carries; Normal if none. */
  function FirstMarked(img: Image, order: seq<(Marker, ProcType)>): (r: ProcType)
    ensures forall k | 0 <= k < |order| ::
      Holds(img, order[k].0) && (forall j | 0 <= j < k :: !Holds(img, order[j].0)) ==> r == order[k].1
    ensures (forall k | 0 <= k < |order| :: !Holds(img, order[k].0)) ==> r == Normal
  {
    if |order| == 0 then Normal
    else if Holds(img, order[0].0) then order[0].1
    else
      var r := FirstMarked(img, order[1..]);
      assert forall k | 1 <= k < |order| :: order[k] == order[1..][k - 1];
      r
  }

  function Classify(img: Image): ProcType
  {
    FirstMarked(img, SCAN_ORDER)
  }

  /**
    Precedence of the markers: UPX0 gives Packed, else `.bind` gives Steam, else the
    appnotify import gives WinStore, else Galaxy64 gives GOG, else eossdk gives Epic,
    else Normal.
  */
  lemma ClassifyPrecedence(img: Image)
    ensures HasSection(img, "UPX0") ==> Classify(img) == Packed
    ensures !HasSection(img, "UPX0") && HasSection(img, ".bind") ==> Classify(img) == Steam
    ensures (!HasSection(img, "UPX0") && !HasSection(img, ".bind") && ImportsLibrary(img, APPNOTIFY_DLL))
      ==> Classify(img) == WinStore
    ensures (!HasSection(img, "UPX0") && !HasSection(img, ".bind") && !ImportsLibrary(img, APPNOTIFY_DLL)
             && ImportsLibrary(img, GALAXY_DLL))
      ==> Classify(img) == GOG
    ensures (!HasSection(img, "UPX0") && !HasSection(img, ".bind") && !ImportsLibrary(img, APPNOTIFY_DLL)
             && !ImportsLibrary(img, GALAXY_DLL) && ImportsLibrary(img, EOS_DLL))
      ==> Classify(img) == Epic
    ensures (!HasSection(img, "UPX0") && !HasSection(img, ".bind") && !ImportsLibrary(img, APPNOTIFY_DLL)
             && !ImportsLibrary(img, GALAXY_DLL) && !ImportsLibrary(img, EOS_DLL))
      ==> Classify(img) == Normal
  {
    assert SCAN_ORDER[0].0 == SectionNamed("UPX0") && SCAN_ORDER[1].0 == SectionNamed(".bind");
    assert SCAN_ORDER[2].0 == ImportsDll(APPNOTIFY_DLL) && SCAN_ORDER[3].0 == ImportsDll(GALAXY_DLL);
    assert SCAN_ORDER[4].0 == ImportsDll(EOS_DLL);
  }

  // ---------------------------------------------------------------- ScanEXE

  /** What opening and mapping the file gives: the mapped image, or the Win32 error of the step that failed. */
  datatype FileOutcome = Mapped(image: Image) | Failed(error: u32)

  /** The loader's guess that an unreadable file belongs to the Microsoft Store build. */
  predicate StorePathHint(path: string)
  {
    Contains(path, "WindowsApps") || Contains(path, "WinGDK")
  }

  /** The variant ScanEXE reports for `path`, or None where it fails. */
  function ScanResult(path: string, file: FileOutcome): (r: Option<ProcType>)
    ensures Contains(path, "WinGDK") ==> r == Some(WinStore)
    ensures !Contains(path, "WinGDK") && file.Mapped? ==> r == Some(Classify(file.image))
    ensures file.Failed? && r.Some? ==> r.value == WinStore
    ensures r.None? <==> !Contains(path, "WinGDK") && file.Failed? && !(file.error == ERROR_ACCESS_DENIED && StorePathHint(path))
  {
    if Contains(path, "WinGDK") then Some(WinStore)
    else match file
      case Mapped(img) => Some(Classify(img))
      case Failed(err) => if err == ERROR_ACCESS_DENIED && StorePathHint(path) then Some(WinStore) else None
  }

  /**
    ScanEXE: write the variant into the hook info and report success.  On failure the
    hook info is left as it was.
  */
  method ScanExe(path: string, file: FileOutcome, hook: HookInfo) returns (ok: bool, out: HookInfo)
    ensures ok == ScanResult(path, file).Some?
    ensures ok ==> out == hook.(procType := ScanResult(path, file).value)
    ensures !ok ==> out == hook
  {
    if Contains(path, "WinGDK") {
      return true, hook.(procType := WinStore);
    }
    match file {
      case Failed(err) =>
        // open, create-mapping and map-view failures share this recovery
        if err == ERROR_ACCESS_DENIED && (Contains(path, "WindowsApps") || Contains(path, "WinGDK")) {
          return true, hook.(procType := WinStore);
        }
        return false, hook;
      case Mapped(img) =>
        ClassifyPrecedence(img);
        var isWinStore := IsWinStoreImage(img);
        var procType: ProcType;
        var upx := IsUpxImage(img);
        if upx {
          procType := Packed;
        } else {
          var steam := IsSteamImage(img);
          if steam {
            procType := Steam;
          } else if isWinStore {
            procType := WinStore;
          } else {
            var gog := IsGogImage(img);
            if gog {
              procType := GOG;
            } else {
              var epic := IsEpicImage(img);
              procType := if epic then Epic else Normal;
            }
          }
        }
        return true, hook.(procType := procType);
    }
  }

  /** A path containing "WinGDK" is classified without looking at the file. */
  lemma WinGdkSkipsFile(path: string, f1: FileOutcome, f2: FileOutcome)
    requires Contains(path, "WinGDK")
    ensures ScanResult(path, f1) == ScanResult(path, f2) == Some(WinStore)
  {
  }

  /**
    A failure to open or map the file is recovered only for access denied on a
    store-looking path; every other failure makes the scan fail.
  */
  lemma ScanFailureRecovery(path: string, err: u32)
    requires !Contains(path, "WinGDK")
    ensures ScanResult(path, Failed(err)).Some? <==> err == ERROR_ACCESS_DENIED && Contains(path, "WindowsApps")
    ensures ScanResult(path, Failed(err)).Some? ==> ScanResult(path, Failed(err)).value == WinStore
  {
  }

  /** An image with both the UPX0 section and any store marker is still Packed. */
  lemma PackedWinsOverStoreMarkers(img: Image)
    requires HasSection(img, "UPX0")
    ensures forall path | !Contains(path, "WinGDK") :: ScanResult(path, Mapped(img)) == Some(Packed)
  {
    ClassifyPrecedence(img);
  }

  /** An image whose only marker is the Galaxy64 import is the GOG build. */
  lemma GogOnlyImportIsGog(img: Image, path: string)
    requires !Contains(path, "WinGDK")
    requires !HasSection(img, "UPX0") && !HasSection(img, ".bind")
    requires !ImportsLibrary(img, APPNOTIFY_DLL) && ImportsLibrary(img, GALAXY_DLL)
    ensures ScanResult(path, Mapped(img)) == Some(GOG)
  {
    ClassifyPrecedence(img);
  }
}
