# OBSE64 loader: executable identification and launch decisions

This project models the core of `obse64_loader`, the program that starts
Oblivion Remastered with the OBSE64 script extender injected, and proves
properties of the model in Dafny. The model covers:

- reading the runtime's product version (`VersionStrToInt`, `GetFileVersionData`);
- the check of that version against the runtime a loader build targets (`VersionCheck`);
- classifying the executable into a distribution variant from its PE image (`GetImageSection`,
  `HasImportedLibrary` with its `LookupRVA`, the `Is*Image` probes, `ScanEXE`);
- `IdentifyEXE`'s verdict and the DLL suffix it derives;
- `main`'s decisions and the order of its effects. These are runtime-name resolution, the ordered
  search for the executable, the DLL path and the rule for accepting the DLL, the Steam environment
  variables, and creating the process suspended, then injecting, then terminating or resuming, and
  finally closing the handles.

Every OS call becomes an input:

- a file-existence predicate;
- the version resource of a file;
- the mapped image of a file, or the Win32 error that stopped the mapping;
- the facts about a DLL;
- the results of `CreateProcess` and of the injection.

The effects on the game process are recorded in a ghost trace. `main` runs `IdentifyEXE` as
written; a `storeFix` flag runs it instead with the Microsoft Store fallback of the Findings
section reachable. `Launcher.StoreInstall` is a sample installation that exercises the store path.

Files:

- `common.dfy`: `Option`, the machine-integer subtypes, 32-bit addition, `strstr`, `_stricmp`.
- `version.dfy`: the `"%d.%d.%d.%d"` scan, 16-bit field packing, `VersionStrToInt`, and decimal rendering with the parse round trip.
- `pe_image.dfy`: the PE image as a value, the section search, RVA translation, and the import-descriptor walk.
- `scan.dfy`: the process types, the marker precedence, and `ScanEXE`.
- `identify.dfy`: the build configuration, `VersionCheck`, `GetFileVersionData`, `IdentifyEXE`, and the DLL suffix.
- `launcher.dfy`: `main` over an abstract environment.

Where the loader's documented behaviour and its code differ, the model follows the code:

- The DLL is checked (existence, loadability, version data, signature) before `CreateProcess`, so
  a bad DLL exits with 1 before any process exists.
- After a failed injection `main` terminates the process and still returns 0.
- `VersionCheck` accepts older and newer runtimes. It only reports an error message for them; the
  only rejection is a build-type mismatch on a Steam or GOG executable.
- A Microsoft Store executable passes `IdentifyEXE` and the DLL checks. Its process is then created,
  but `main` reaches `HALT("impossible")` before injection, because only Steam, Normal and GOG are
  injected. The model ends such a run with `Halted`.

Modelling conventions:

- Values written through out-pointers (`*out`, `*dllSuffix`, `hookInfo->…`) are in/out values.
  Each method takes the caller's old value and returns the new one. This keeps it visible which
  paths leave a value untouched.
- `result <<= 16; result |= part` is modelled as `result * 2^16 + part`. The shift leaves the low
  16 bits zero and each part is at most 0xFFFF, so the `|` adds.
- The 16-bit fields 3, 2 and 1 of the 64-bit version stand in for `getVersionMajor`,
  `getVersionMinor` and `getVersionBuild`.
- `MAKE_EXE_VERSION` is a function carried in the build configuration.

## Model

| member | source | states |
|---|---|---|
| Common.AddU32 | obse64_loader/IdentifyEXE.cpp:199 | `VirtualAddress + SizeOfRawData` is DWORD arithmetic: it is the plain sum below 2^32 and wraps by 2^32 above it |
| Common.Contains | obse64_loader/IdentifyEXE.cpp:253 | `strstr` finds something only in a string at least as long as the needle; the empty needle and a prefix are always found |
| Common.EqualsIgnoreCase | obse64_loader/IdentifyEXE.cpp:214 | `_stricmp` equality holds only between strings of equal length, and always between a string and itself |
| Common.EqualsIgnoreCaseEquivalence | obse64_loader/IdentifyEXE.cpp:214 | `_stricmp` equality is symmetric and transitive |
| Common.EqualsIgnoreCaseLetters | obse64_loader/IdentifyEXE.cpp:214 | two characters compare equal exactly when they are the same or an ASCII upper-case letter and its lower-case form |
| Version.ScanFields | obse64_loader/IdentifyEXE.cpp:106 | the `%d.%d.%d.%d` scan yields at most four components; which ones is stated by Version.ScanJoined and Version.ScanFormat |
| Version.FieldsOfPack | obse64_loader/IdentifyEXE.cpp:109-116 | each 16-bit field of `p0<<48 \| p1<<32 \| p2<<16 \| p3` reads back exactly |
| Version.FieldsPack | obse64_loader/IdentifyEXE.cpp:109-116 | every 64-bit value is the packing of its own four fields, so packing loses nothing |
| Version.VersionStrToInt | obse64_loader/IdentifyEXE.cpp:101-121 | succeeds exactly when four components are scanned and none exceeds 0xFFFF; then the out-value is their packing, otherwise the caller's `*out` is returned unchanged |
| Version.ScanJoined | obse64_loader/IdentifyEXE.cpp:106 | scanning numbers printed with `%d` and a non-digit separator gives the numbers back, also when non-digit text follows the number in the fourth field |
| Version.ScanFormat | obse64_loader/IdentifyEXE.cpp:106 | scanning the `%d.%d.%d.%d` rendering of four numbers gives those four numbers |
| Version.ParseFormat | obse64_loader/IdentifyEXE.cpp:101-121 | round trip: a rendered version with components at most 0xFFFF parses to their packing, and each field reads back; a version with any component above 0xFFFF is rejected |
| Version.ParseThreeFails | obse64_loader/IdentifyEXE.cpp:106-107 | a string with only three components is rejected |
| Version.ParseExample | obse64_loader/IdentifyEXE.cpp:101-121 | `"1.2.3.4"` parses, with fields 1, 2, 3, 4 from the most significant down |
| Version.ParseOverflowExample | obse64_loader/IdentifyEXE.cpp:111-112 | `"70000.1.1.1"` is rejected because 70000 exceeds 0xFFFF |
| PeImage.GetImageSection | obse64_loader/IdentifyEXE.cpp:160-177 | returns the first section, by index, named exactly like the query, and NULL exactly when no section has that name |
| PeImage.SectionFor | obse64_loader/IdentifyEXE.cpp:192-206 | the first section, by index, whose range `[VA, VA + SizeOfRawData)` contains the RVA; none exactly when no range contains it |
| PeImage.LookupRva | obse64_loader/IdentifyEXE.cpp:192-206 | the loop returns `rva - VA + PointerToRawData` of that first containing section, and null when there is none |
| PeImage.HasImportedLibrary | obse64_loader/IdentifyEXE.cpp:180-222 | false when the import directory's Size or VirtualAddress is 0 or its RVA does not resolve; otherwise true exactly when a descriptor before the first one with zero Characteristics has a resolvable name equal to the query, ignoring ASCII case |
| Scan.IsSteamImage | obse64_loader/IdentifyEXE.cpp:225-228 | true exactly when some section is named `.bind` |
| Scan.IsUpxImage | obse64_loader/IdentifyEXE.cpp:230-233 | true exactly when some section is named `UPX0` |
| Scan.IsWinStoreImage | obse64_loader/IdentifyEXE.cpp:235-238 | true exactly when the image imports `api-ms-win-core-psm-appnotify-l1-1-0.dll` |
| Scan.IsGogImage | obse64_loader/IdentifyEXE.cpp:240-243 | true exactly when the image imports `Galaxy64.dll` |
| Scan.IsEpicImage | obse64_loader/IdentifyEXE.cpp:245-248 | true exactly when the image imports `eossdk-win64-shipping.dll` |
| Scan.FirstMarked | obse64_loader/IdentifyEXE.cpp:289-314 | the type is that of the first marker in precedence order that the image carries, and Normal when it carries none |
| Scan.ClassifyPrecedence | obse64_loader/IdentifyEXE.cpp:289-314 | UPX0 gives Packed, else `.bind` gives Steam, else the appnotify import gives WinStore, else Galaxy64 gives GOG, else eossdk gives Epic, else Normal |
| Scan.ScanExe | obse64_loader/IdentifyEXE.cpp:250-351 | succeeds exactly where the reference classification gives a type, and writes that type; on failure the hook info is unchanged |
| Scan.ScanResult | obse64_loader/IdentifyEXE.cpp:250-351 | a `WinGDK` path gives WinStore; a mapped image on another path gives its classification; a failed mapping gives WinStore or nothing; nothing exactly for a failure other than access denied on a store-looking path |
| Scan.WinGdkSkipsFile | obse64_loader/IdentifyEXE.cpp:253-259 | a path containing `WinGDK` gives WinStore whatever the file holds or whether it opens |
| Scan.ScanFailureRecovery | obse64_loader/IdentifyEXE.cpp:262-276 | an open or mapping failure is recovered, as WinStore, exactly for ERROR_ACCESS_DENIED on a path containing `WindowsApps` (or `WinGDK`, which is handled earlier) |
| Scan.PackedWinsOverStoreMarkers | obse64_loader/IdentifyEXE.cpp:289-292 | a UPX0 section makes the image Packed whatever imports it also has |
| Scan.GogOnlyImportIsGog | obse64_loader/IdentifyEXE.cpp:301-304 | an image whose first marker is the Galaxy64 import is GOG |
| Identify.VersionCheck | obse64_loader/IdentifyEXE.cpp:8-99 | rejects exactly a version other than the targeted one on a Steam or GOG executable of the other build, reporting the expected and found types; the targeted version passes silently; older versions pass with the beta-branch or out-of-date message, newer ones with the too-new message |
| Identify.VersionCheckVerdictIgnoresDistance | obse64_loader/IdentifyEXE.cpp:19-98 | the verdict depends on the version only through whether it is the targeted one: older and newer runtimes are treated alike |
| Identify.GetFileVersionData | obse64_loader/IdentifyEXE.cpp:123-140 | succeeds exactly when the resource is read and its product version parses; only then is `*out` written; the product name is written once the resource is read |
| Identify.SuffixDeterminesVersion | obse64_loader/IdentifyEXE.cpp:468-496 | equal suffixes `maj_min_build` plus `_gog`/`_winstore` come from equal major, minor and build, and the same distribution tag |
| Identify.Decide | obse64_loader/IdentifyEXE.cpp:388-504 | records the version and packed version; for a non-OBSE64 product whose scan succeeds, the recorded type is the type ScanEXE found; accepts exactly a non-OBSE64 product whose scanned type is Steam, Normal, GOG or WinStore, so a scanned Epic or Packed executable is rejected; the editor suffix is empty when accepted and untouched when rejected; the game suffix is `maj_min_build` plus the tag of the scanned type; an OBSE64 product or a failed scan leaves suffix and type untouched; a scanned Epic executable leaves the suffix untouched |
| Identify.FinishIdentify | obse64_loader/IdentifyEXE.cpp:385-504 | the imperative tail of IdentifyEXE computes exactly the verdict, suffix and hook info of the reference decision |
| Identify.IdentifyAsWritten | obse64_loader/IdentifyEXE.cpp:353-504 | a `WinGDK` path is always accepted as WinStore with the uninitialised value as its version; elsewhere an unreadable version leaves every output untouched and a readable one is recorded; an accepted type is the scanned one and supported |
| Identify.IdentifyCorrected | obse64_loader/IdentifyEXE.cpp:353-504 | a `WinGDK` path is always accepted as WinStore with the hard-coded store version; elsewhere an unreadable version leaves every output untouched and a readable one is recorded; an accepted type is the scanned one and supported |
| Identify.IdentifyExeAsWritten | obse64_loader/IdentifyEXE.cpp:353-504 | IdentifyEXE as written, with the unassigned `version` of a `WinGDK` path taken as an arbitrary input |
| Identify.IdentifyExe | obse64_loader/IdentifyEXE.cpp:353-504 | IdentifyEXE with the Microsoft Store fallback applied to `WinGDK` paths |
| Identify.EditorFlagOnlyChangesSuffix | obse64_loader/IdentifyEXE.cpp:447-503 | the editor and the game accept the same types and record the same hook info; only the suffix differs |
| Identify.RejectedGameTypeStillWritesSuffix | obse64_loader/IdentifyEXE.cpp:466-503 | a Packed executable is rejected, yet `*dllSuffix` already holds `maj_min_build` |
| Identify.AcceptedSuffixesSeparateVersions | obse64_loader/IdentifyEXE.cpp:468-496 | two accepted game executables with the same suffix agree in major, minor and build |
| Identify.AsWrittenStoreVersionIsUninitialised | obse64_loader/IdentifyEXE.cpp:359-389 | as written, a `WinGDK` game executable is accepted with the uninitialised `version` recorded, and garbage values differing in major, minor or build give different DLL suffixes |
| Identify.StoreVersionIsFallback | obse64_loader/IdentifyEXE.cpp:366-377 | with the fallback reachable, a `WinGDK` game executable is accepted as WinStore version 0.411.140, suffix `0_411_140_winstore`, whatever its version resource says |
| Launcher.RuntimeName | obse64_loader/main.cpp:76-94 | a non-empty configured name is returned as it is and marked custom; otherwise the default name, unless the loader's own name equals it ignoring case, which is the only failure |
| Launcher.ResolveRuntimeName | obse64_loader/main.cpp:76-94 | the imperative resolution gives exactly that name and custom flag, and fails exactly for a renamed loader without a configured name |
| Launcher.FirstFound | obse64_loader/main.cpp:213-233 | the first of the candidate locations, in listed order, that exists; none exactly when none exists |
| Launcher.Locate | obse64_loader/main.cpp:97-257 | a located executable exists and is named either the runtime or the WinGDK executable; nothing is found only when the WinGDK executable is missing, and without a manifest the failure says whether the name was custom |
| Launcher.LocateRuntime | obse64_loader/main.cpp:97-257 | the step-by-step probing of `main` chooses exactly the executable of the reference location rule |
| Launcher.LocatedPathExists | obse64_loader/main.cpp:129-256 | the chosen path always exists; the store search fails exactly when the primary path and the WinGDK executable are missing, the manifest exists and none of the six locations exists |
| Launcher.LocatePrefersRuntime | obse64_loader/main.cpp:97-129 | an existing runtime keeps its name and path ahead of the WinGDK executable; an existing `altExe` is the path, under the name chosen by the first switch |
| Launcher.LocateSwitchesToStore | obse64_loader/main.cpp:100-125 | a missing runtime with the WinGDK executable present switches both name and path to it; an existing `altExe` then overrides the path only |
| Launcher.CheckDll | obse64_loader/main.cpp:320-377 | the DLL is accepted exactly when it loads, is 64-bit, exports version data with the expected data version and the executable's packed version, and its signature checks |
| Launcher.DllPath | obse64_loader/main.cpp:288-297 | `altDll` is used verbatim; otherwise the path is the runtime directory, `obse64_`, the suffix and `.dll`, with the suffix at a fixed position |
| Launcher.DllPathsSeparateVersions | obse64_loader/main.cpp:288-297 | without `altDll`, different suffixes give different DLL paths |
| Launcher.AlwaysCreatedSuspended | obse64_loader/main.cpp:402-404 | the creation flags always contain CREATE_SUSPENDED, and are exactly it without a priority |
| Launcher.CreateSuspended | obse64_loader/main.cpp:402-448 | the flags passed to CreateProcess are the computed ones and contain CREATE_SUSPENDED; the effects are the creation and the requested affinity |
| Launcher.LaunchProcess | obse64_loader/main.cpp:379-494 | the imperative process stage has exactly the outcome and effect trace of the reference process stage |
| Launcher.ProcessStage | obse64_loader/main.cpp:379-494 | the run returns 1 exactly when CreateProcess fails, halts exactly for a created process of a type that is not injected, and returns 0 otherwise; the trace starts with the Steam setup |
| Launcher.CountAppend | obse64_loader/main.cpp:490-492 | occurrences of an effect in a concatenated trace add up |
| Launcher.InjectThenTerminateOrResume | obse64_loader/main.cpp:450-488 | for an injectable type main returns 0; it terminates the process exactly when injection failed and resumes it exactly when injection succeeded |
| Launcher.HandlesClosedOnce | obse64_loader/main.cpp:490-494 | for an injectable type each handle is closed exactly once, as the last two effects, whether or not injection succeeded |
| Launcher.ClosedOnceAtEnd | obse64_loader/main.cpp:490-492 | a trace ending with the two CloseHandle calls and none before closes each handle once |
| Launcher.CreatedBeforeInjected | obse64_loader/main.cpp:396-460 | after the Steam setup the first effect is the creation of the process with the computed flags, and the injection comes after it |
| Launcher.CreateFailureCreatesNothing | obse64_loader/main.cpp:406-435 | a failed CreateProcess returns 1 and leaves only the environment variables set |
| Launcher.NonInjectableHalts | obse64_loader/main.cpp:454-464 | a type other than Steam, Normal or GOG halts with the process created, no injection attempted, and the process neither resumed, terminated nor closed |
| Launcher.SteamVariables | obse64_loader/main.cpp:380-394 | SteamGameId is set exactly for Steam, to 2623190 for the game; SteamAppID exactly for Steam with `skipLauncher` |
| Launcher.SetSteamEnvironment | obse64_loader/main.cpp:380-394 | the environment variables set are exactly the Steam setup of the type and options |
| Launcher.WaitedOnlyAfterSuccess | obse64_loader/main.cpp:466-488 | the process is waited for exactly when injection succeeded and `waitForClose` is set, and exactly one of resume and terminate happens |
| Launcher.FinishInjection | obse64_loader/main.cpp:466-488 | after injection the process is terminated on failure, and resumed, then waited for with `waitForClose`, on success |
| Launcher.RunLoader | obse64_loader/main.cpp:24-495 | every early exit returns its code with no effect on any process; otherwise main's outcome and trace are exactly the process stage for the planned executable, recorded type and DLL; IdentifyEXE runs as written, or corrected when `storeFix` is set |
| Launcher.LaunchOnlyWithAcceptedDll | obse64_loader/main.cpp:259-377 | a launch happens only for an existing executable of a supported type, with an existing DLL that loads, is 64-bit, is signed, and exports the expected core data version and exactly the packed version recorded for the executable, which is `MAKE_EXE_VERSION` of its version |
| Launcher.CrcOnlyStopsAfterIdentification | obse64_loader/main.cpp:273-286 | with `-crconly` nothing is ever launched, and the exit code is 0 exactly when only the options were asked for or the located executable was identified |
| Launcher.StoreLaunchHalts | obse64_loader/main.cpp:259-464 | an installation holding only the WinGDK executable and a DLL built for it reaches the launch of a WinStore process, with the hard-coded version when corrected and the uninitialised one as written, and that launch ends in the halt |
| Launcher.DllNamedAfterVersion | obse64_loader/main.cpp:288-297 | without `altDll` the DLL is `obse64_<major>_<minor>_<build>` of the recorded version, plus the tag of the recorded type, plus `.dll`, in the runtime directory |
| Launcher.LaunchedHookIsExecutables | obse64_loader/main.cpp:269-278 | the hook info of a launch belongs to the executable: its type is what the scan of that file gives, and its version is the one parsed from its resource, or for a `WinGDK` path the hard-coded one when corrected and the uninitialised value as written |
| Launcher.Prepare | obse64_loader/main.cpp:24-377 | an early exit has code 0 exactly for `-optionsonly`, or for `-crconly` once the located executable is identified, and code 1 for every failure (options, runtime name, executable, IdentifyEXE, DLL); a launch has options read, neither options-only, editor nor CRC-only, for the located executable that IdentifyEXE accepted, with the hook info it recorded |

## Left out

- Logging (`_MESSAGE`, `_ERROR`, `_WARNING`, `DumpVersionInfo`, the startup banner) and
  `PrintLoaderError`: only the kind of `VersionCheck` message and the reason the executable was not
  found are kept. That an error was reported shows only in the exit code.
- The Win32 resource API behind `GetFileVersion`: its result is the input `VersionResource`.
- `CreateFile`, `CreateFileMapping` and `MapViewOfFile` are not modelled; their combined result is the input `FileOutcome`.
  The three failure sites share one recovery rule, so a single error code stands for all of them.
- Version.ScanFields: digit-only components only. `sscanf_s`'s acceptance of leading whitespace and
  signs, `int` overflow of a component, and negative components that sign-extend into `result` are
  not modelled. Trailing text after the fourth number is accepted, as in the source.
- The headers holding `MAKE_EXE_VERSION`, `GET_EXE_VERSION_*` and `ProcHookInfo::getVersion*` are not
  part of this model. The packing is an opaque function in `Identify.Build`, and the version getters
  are taken to be the 16-bit fields.
- The PE headers are taken as already decoded: the DOS header, `e_lfanew`, the NT headers and
  `IMAGE_FIRST_SECTION` become a section list and an import-directory entry. A section name is the
  string `strcmp` sees.
- PeImage.HasImportedLibrary: reads outside the mapped file are undefined behaviour in the source.
  In the model they end the descriptor walk, or make that name unresolvable.
- The foreign calls are not modelled:
  - `CreateProcess` (its error code only chooses a message);
  - `InjectDLLThread` (a boolean input);
  - `CheckDLLSignature`, `LoadLibraryEx`, `is64BitDLL` and `getResourceLibraryProcAddress` (`DllFacts`);
  - `SetProcessAffinityMask` (a failure is only a warning; the attempt is recorded);
  - the return value of `ResumeThread` (only a warning);
  - `WaitForSingleObject` (recorded as `Waited`);
  - `FreeLibrary`.
- `FileStream::open` and `FileExists` are one existence predicate. So the `FileExists` retries after
  a failed open (obse64_loader/main.cpp:142, 171, 197-205) add nothing and are folded into the open.
- Options parsing (`g_options.Read`, `PrintUsage`) and `getConfigOption`, `getRuntimeName` and
  `getRuntimeDirectory` are not modelled. Their results are inputs; a failed read is `options == None`.
- The editor branch of `main` (obse64_loader/main.cpp:55-73) is modelled only by its exit code 1.
  The editor mode of `IdentifyEXE` is modelled in `Identify.Decide`.
- The initial contents of `main`'s `ProcHookInfo` come from a constructor that is not part of this model.
  The model starts from type Unknown with zero versions. Every field is written before it is read
  on the paths that use it.

## Findings

| source | as written | input that shows it | evidently intended | confidence | as-written member | corrected member |
|---|---|---|---|---|---|---|
| obse64_loader/IdentifyEXE.cpp:362-377 | `if (!isMSStore && !GetFileVersionData(...)) { if (isMSStore) { /* hard-coded version */ } else { fail } }`: the fallback's guard can never hold, and for a `WinGDK` path `version` is never assigned | an executable path containing `WinGDK`, in game mode: it is accepted, and the uninitialised `version` is recorded in the hook info and printed into the DLL suffix | a `WinGDK` executable uses the hard-coded version 0.411.140 and product name `Oblivion Remastered MS` | high (not executed) | Identify.AsWrittenStoreVersionIsUninitialised | Identify.StoreVersionIsFallback |
