/**
  The decisions and the order of side effects of the loader's `main`
  (obse64_loader/main.cpp), over an abstract environment: the options and
  configuration, a file-existence predicate, what each file and DLL holds, and
  the outcomes of the foreign process calls.  The effects on the game process
  are recorded in a ghost trace.
*/
module Launcher {
  import opened Common
  import opened Version
  import opened Scan
  import opened Identify

  // ---------------------------------------------------------------- environment

  /** The options main consults once g_options.Read has succeeded. */
  datatype Options = Options(
    optionsOnly: bool, launchCS: bool, altExe: string, altDll: string, crcOnly: bool,
    setPriority: bool, priority: bv32, affinity: u64, skipLauncher: bool, noTimeout: bool, waitForClose: bool)

  /** The OBSECoreVersionData a DLL exports as OBSECore_Version. */
  datatype CoreVersionData = CoreVersionData(dataVersion: u32, runtimeVersion: u32)

  /** What loading a DLL as a resource, and checking its signature, reveals about it. */
  datatype DllFacts = DllFacts(loads: bool, is64Bit: bool, coreVersion: Option<CoreVersionData>, signatureOk: bool)

  /**
    Everything main learns from outside: `options` is None when the command line
    cannot be read; `fileExists` stands for both FileStream::open and FileExists;
    `createError` is the error of a failed CreateProcess; `uninitialised` is
    whatever IdentifyEXE's local `version` holds when nothing assigns it.
  */
  datatype Env = Env(
    options: Option<Options>,
    configRuntimeName: string,
    loaderName: string,
    runtimeDir: string,
    fileExists: string -> bool,
    versionResource: string -> Option<VersionResource>,
    image: string -> FileOutcome,
    dll: string -> DllFacts,
    createError: Option<u32>,
    injectOk: bool,
    uninitialised: u64)

  /** An effect on the game process or on the environment it inherits. */
  datatype Effect =
    | SetEnv(name: string, value: string)
    | Created(path: string, flags: bv32)
    | SetAffinity(mask: u64)
    | Injected(dll: string, noTimeout: bool)
    | Terminated
    | Resumed
    | Waited
    | ClosedProcess
    | ClosedThread

  /** How main ends: an exit code, or HALT("impossible"). */
  datatype Outcome = Exit(code: int) | Halted

  const DEFAULT_RUNTIME: string := "OblivionRemastered-Win64-Shipping.exe"
  const MS_STORE_RUNTIME: string := "OblivionRemastered-WinGDK-Shipping.exe"
  const MANIFEST: string := "../../../appxmanifest.xml"
  const POSSIBLE_LOCATIONS: seq<string> := [
    "OblivionRemastered-WinGDK-Shipping.exe",
    "OblivionRemastered-Win64-Shipping.exe",
    "../OblivionRemastered-WinGDK-Shipping.exe",
    "../OblivionRemastered-Win64-Shipping.exe",
    "../../OblivionRemastered-WinGDK-Shipping.exe",
    "../../OblivionRemastered-Win64-Shipping.exe"
  ]
  const BASE_DLL_NAME: string := "obse64"
  const STEAM_APP_ID: string := "2623190"
  const CREATE_SUSPENDED: bv32 := 4

  // ---------------------------------------------------------------- runtime name

  /** The runtime name and whether it came from the configuration; None when the loader was renamed to it. */
  function RuntimeName(configName: string, loaderName: string): (r: Option<(string, bool)>)
    ensures configName != "" ==> r == Some((configName, true))
    ensures r.Some? ==> r.value.0 != "" && (r.value.1 <==> configName != "")
    ensures r.Some? && !r.value.1 ==> r.value.0 == DEFAULT_RUNTIME
    ensures r.None? <==> configName == "" && EqualsIgnoreCase(Codes(loaderName), Codes(DEFAULT_RUNTIME))
  {
    if configName != "" then Some((configName, true))
    else if EqualsIgnoreCase(Codes(loaderName), Codes(DEFAULT_RUNTIME)) then None
    else Some((DEFAULT_RUNTIME, false))
  }

  method ResolveRuntimeName(configName: string, loaderName: string) returns (ok: bool, procName: string, custom: bool)
    ensures ok <==> RuntimeName(configName, loaderName).Some?
    ensures ok ==> (procName, custom) == RuntimeName(configName, loaderName).value
    ensures ok ==> procName != ""
    ensures !ok ==> configName == "" && EqualsIgnoreCase(Codes(loaderName), Codes(DEFAULT_RUNTIME))
  {
    custom := false;
    procName := configName;
    if |procName| > 0 {
      custom := true;
    } else {
      procName := DEFAULT_RUNTIME;
      if EqualsIgnoreCase(Codes(loaderName), Codes(procName)) {
        return false, procName, custom;
      }
    }
    ok := true;
  }

  // ---------------------------------------------------------------- locating the executable

  /** Why no executable was found; the loader prints a different hint for each. */
  datatype LocateFailure = StoreExeNotFound | CustomRuntimeMissing | GameExeMissing

  datatype LocateResult = Located(procName: string, procPath: string) | NotFound(failure: LocateFailure)

  /** The index of the first of `locations`, below `dir`, that exists. */
  function FirstFound(fileExists: string -> bool, dir: string, locations: seq<string>): (r: Option<nat>)
    ensures r.Some? ==> r.value < |locations| && fileExists(dir + locations[r.value])
    ensures r.Some? ==> forall j | 0 <= j < r.value :: !fileExists(dir + locations[j])
    ensures r.None? ==> forall j | 0 <= j < |locations| :: !fileExists(dir + locations[j])
  {
    if |locations| == 0 then None
    else if fileExists(dir + locations[0]) then Some(0)
    else match FirstFound(fileExists, dir, locations[1..])
      case None => None
      case Some(k) => Some(k + 1)
  }

  /**
    The executable main launches: the runtime, or the WinGDK one when the runtime is
    missing, with `altExe` overriding the path; then the WinGDK one again; then, for
    an installation with an appxmanifest, the first of the possible locations.
  */
  function Locate(fileExists: string -> bool, runtimeDir: string, procName: string, custom: bool, altExe: string)
    : (r: LocateResult)
    ensures r.Located? ==> fileExists(r.procPath) && (r.procName == procName || r.procName == MS_STORE_RUNTIME)
    ensures r.NotFound? ==> !fileExists(runtimeDir + MS_STORE_RUNTIME)
    ensures r.NotFound? && !fileExists(runtimeDir + MANIFEST) ==> r.failure == if custom then CustomRuntimeMissing else GameExeMissing
  {
    var storePath := runtimeDir + MS_STORE_RUNTIME;
    var switched := !fileExists(runtimeDir + procName) && fileExists(storePath);
    var name := if switched then MS_STORE_RUNTIME else procName;
    var path := if altExe != "" then altExe else if switched then storePath else runtimeDir + procName;
    if fileExists(path) then Located(name, path)
    else if fileExists(storePath) then Located(MS_STORE_RUNTIME, storePath)
    else if fileExists(runtimeDir + MANIFEST) then
      match FirstFound(fileExists, runtimeDir, POSSIBLE_LOCATIONS)
      case Some(i) => Located(name, runtimeDir + POSSIBLE_LOCATIONS[i])
      case None => NotFound(StoreExeNotFound)
    else NotFound(if custom then CustomRuntimeMissing else GameExeMissing)
  }

  /**
    main's steps from `procPath = runtimeDir + procName` to the end of the
    existence checks.  FileStream::open and FileExists are the same predicate
    here, so each FileExists retry after a failed open is folded into the open.
  */
  method LocateRuntime(fileExists: string -> bool, runtimeDir: string, procName0: string, custom: bool, altExe: string)
    returns (r: LocateResult)
    ensures r == Locate(fileExists, runtimeDir, procName0, custom, altExe)
  {
    var procName := procName0;
    var procPath := runtimeDir + procName;
    if !fileExists(procPath) {
      var storePath := runtimeDir + MS_STORE_RUNTIME;
      if fileExists(storePath) {
        procName := MS_STORE_RUNTIME;
        procPath := storePath;
      }
    }
    if |altExe| > 0 {
      procPath := altExe;
    }
    var found := fileExists(procPath);
    if !found {
      var storePath := runtimeDir + MS_STORE_RUNTIME;
      if fileExists(storePath) {
        procName := MS_STORE_RUNTIME;
        procPath := storePath;
        found := true;
      }
    }
    if !found {
      var msStore := fileExists(runtimeDir + MANIFEST);
      if msStore {
        for i := 0 to |POSSIBLE_LOCATIONS|
          invariant forall j | 0 <= j < i :: !fileExists(runtimeDir + POSSIBLE_LOCATIONS[j])
        {
          var testPath := runtimeDir + POSSIBLE_LOCATIONS[i];
          if fileExists(testPath) {
            FirstFoundIs(fileExists, runtimeDir, POSSIBLE_LOCATIONS, i);
            return Located(procName, testPath);
          }
        }
        NoneFound(fileExists, runtimeDir, POSSIBLE_LOCATIONS);
        return NotFound(StoreExeNotFound);
      }
      return NotFound(if custom then CustomRuntimeMissing else GameExeMissing);
    }
    return Located(procName, procPath);
  }

  lemma FirstFoundIs(fileExists: string -> bool, dir: string, locations: seq<string>, i: nat)
    requires i < |locations| && fileExists(dir + locations[i])
    requires forall j | 0 <= j < i :: !fileExists(dir + locations[j])
    ensures FirstFound(fileExists, dir, locations) == Some(i)
  {
  }

  lemma NoneFound(fileExists: string -> bool, dir: string, locations: seq<string>)
    requires forall j | 0 <= j < |locations| :: !fileExists(dir + locations[j])
    ensures FirstFound(fileExists, dir, locations) == None
  {
  }

  /** Whatever path is chosen exists; nothing is found only when neither the runtime nor the WinGDK executable exists. */
  lemma LocatedPathExists(fileExists: string -> bool, runtimeDir: string, procName: string, custom: bool, altExe: string)
    ensures var r := Locate(fileExists, runtimeDir, procName, custom, altExe);
      (r.Located? ==> fileExists(r.procPath)) &&
      (r.NotFound? ==> !fileExists(runtimeDir + MS_STORE_RUNTIME) && (altExe == "" ==> !fileExists(runtimeDir + procName)))
    ensures var r := Locate(fileExists, runtimeDir, procName, custom, altExe);
      r == NotFound(StoreExeNotFound) <==>
        !fileExists(if altExe != "" then altExe else runtimeDir + procName) && !fileExists(runtimeDir + MS_STORE_RUNTIME) &&
        fileExists(runtimeDir + MANIFEST) && forall j | 0 <= j < |POSSIBLE_LOCATIONS| :: !fileExists(runtimeDir + POSSIBLE_LOCATIONS[j])
  {
    var r := Locate(fileExists, runtimeDir, procName, custom, altExe);
    var ff := FirstFound(fileExists, runtimeDir, POSSIBLE_LOCATIONS);
    if ff.Some? {
      assert !(forall j | 0 <= j < |POSSIBLE_LOCATIONS| :: !fileExists(runtimeDir + POSSIBLE_LOCATIONS[j])) by {
        assert fileExists(runtimeDir + POSSIBLE_LOCATIONS[ff.value]);
      }
    }
  }

  /** A missing runtime with the WinGDK executable present switches both name and path, unless `altExe` is given and exists. */
  lemma LocateSwitchesToStore(fileExists: string -> bool, runtimeDir: string, procName: string, custom: bool, altExe: string)
    requires !fileExists(runtimeDir + procName) && fileExists(runtimeDir + MS_STORE_RUNTIME)
    ensures var r := Locate(fileExists, runtimeDir, procName, custom, altExe);
      r.Located? && r.procName == MS_STORE_RUNTIME &&
      r.procPath == (if altExe != "" && fileExists(altExe) then altExe else runtimeDir + MS_STORE_RUNTIME)
  {
  }

  /**
    An existing runtime is kept ahead of the WinGDK executable; an existing `altExe`
    is used as the path, under the name the first switch chose.
  */
  lemma LocatePrefersRuntime(fileExists: string -> bool, runtimeDir: string, procName: string, custom: bool, altExe: string)
    ensures fileExists(runtimeDir + procName) ==>
      Locate(fileExists, runtimeDir, procName, custom, "") == Located(procName, runtimeDir + procName)
    ensures altExe != "" && fileExists(altExe) ==>
      Locate(fileExists, runtimeDir, procName, custom, altExe) ==
        Located(if !fileExists(runtimeDir + procName) && fileExists(runtimeDir + MS_STORE_RUNTIME)
                then MS_STORE_RUNTIME else procName, altExe)
  {
  }

  // ---------------------------------------------------------------- the DLL

  /** `m_altDLL` verbatim, or `runtimeDir + "obse64" + "_" + dllSuffix + ".dll"`. */
  function DllPath(altDll: string, runtimeDir: string, suffix: string): (r: string)
    ensures altDll != "" ==> r == altDll
    ensures altDll == "" ==>
      |r| == |runtimeDir| + |suffix| + 11 && r[..|runtimeDir|] == runtimeDir &&
      r[|runtimeDir|..|runtimeDir| + 7] == "obse64_" && r[|runtimeDir| + 7..|r| - 4] == suffix && r[|r| - 4..] == ".dll"
  {
    if altDll != "" then altDll else runtimeDir + BASE_DLL_NAME + "_" + suffix + ".dll"
  }

  /** The loader trusts a DLL that loads as a 64-bit image exporting matching version data and carrying a valid signature. */
  predicate DllAccepted(facts: DllFacts, packedVersion: u32, b: Build)
  {
    facts.loads && facts.is64Bit && facts.coreVersion.Some? &&
    facts.coreVersion.value.dataVersion == b.coreDataVersion &&
    facts.coreVersion.value.runtimeVersion == packedVersion &&
    facts.signatureOk
  }

  /** The `dllOK` computation of main; the signature is checked only for an otherwise good DLL. */
  method CheckDll(facts: DllFacts, packedVersion: u32, b: Build) returns (dllOk: bool)
    ensures dllOk == DllAccepted(facts, packedVersion, b)
    ensures dllOk ==> facts.coreVersion.Some? && facts.coreVersion.value.runtimeVersion == packedVersion
  {
    dllOk := false;
    if facts.loads {
      if facts.is64Bit {
        if facts.coreVersion.Some? {
          var version := facts.coreVersion.value;
          if version.dataVersion == b.coreDataVersion && version.runtimeVersion == packedVersion {
            dllOk := true;
          }
        }
      }
    }
    if dllOk {
      if !facts.signatureOk {
        dllOk := false;
      }
    }
  }

  /** The suffix reaches the DLL name unchanged, so distinct game versions load distinct DLLs. */
  lemma DllPathsSeparateVersions(runtimeDir: string, s1: string, s2: string)
    requires DllPath("", runtimeDir, s1) == DllPath("", runtimeDir, s2)
    ensures s1 == s2
  {
    var prefix := runtimeDir + BASE_DLL_NAME + "_";
    assert DllPath("", runtimeDir, s1) == prefix + s1 + ".dll";
    assert DllPath("", runtimeDir, s2) == prefix + s2 + ".dll";
    assert |s1| == |s2|;
    assert s1 == (prefix + s1 + ".dll")[|prefix|..|prefix| + |s1|];
    assert s2 == (prefix + s2 + ".dll")[|prefix|..|prefix| + |s2|];
  }

  // ---------------------------------------------------------------- the process

  /** `CREATE_SUSPENDED`, or'ed with the priority class when one is requested. */
  function CreateFlags(o: Options): bv32
  {
    if o.setPriority then CREATE_SUSPENDED | o.priority else CREATE_SUSPENDED
  }

  /** The game process always starts suspended, whatever priority is asked for. */
  lemma AlwaysCreatedSuspended(o: Options)
    ensures CreateFlags(o) & CREATE_SUSPENDED == CREATE_SUSPENDED
    ensures !o.setPriority ==> CreateFlags(o) == CREATE_SUSPENDED
  {
  }

  function SteamAppId(o: Options): string
  {
    if !o.launchCS then STEAM_APP_ID else "???"
  }

  /** The environment variables set for a Steam executable: SteamGameId always, SteamAppID with `skipLauncher`. */
  function SteamSetup(t: ProcType, o: Options): seq<Effect>
  {
    if t == Steam then
      [SetEnv("SteamGameId", SteamAppId(o))] + (if o.skipLauncher then [SetEnv("SteamAppID", SteamAppId(o))] else [])
    else []
  }

  predicate Injectable(t: ProcType)
  {
    t == Steam || t == Normal || t == GOG
  }

  /** CreateProcess, suspended, and the optional SetProcessAffinityMask. */
  function Creation(o: Options, procPath: string): seq<Effect>
  {
    [Created(procPath, CreateFlags(o))] + (if o.affinity != 0 then [SetAffinity(o.affinity)] else [])
  }

  /** What follows the injection: TerminateProcess on failure; ResumeThread, and the optional wait, on success. */
  function AfterInjection(o: Options, injectOk: bool): seq<Effect>
  {
    if injectOk then [Resumed] + (if o.waitForClose then [Waited] else []) else [Terminated]
  }

  /** The outcome and the effects of main from the Steam setup on. */
  function ProcessStage(o: Options, t: ProcType, procPath: string, dllPath: string, createError: Option<u32>, injectOk: bool)
    : (r: (Outcome, seq<Effect>))
    ensures r.0 == Exit(1) <==> createError.Some?
    ensures r.0 == Halted <==> createError.None? && !Injectable(t)
    ensures r.0 == Exit(0) <==> createError.None? && Injectable(t)
    ensures |SteamSetup(t, o)| <= |r.1| && r.1[..|SteamSetup(t, o)|] == SteamSetup(t, o)
  {
    var setup := SteamSetup(t, o);
    if createError.Some? then (Exit(1), setup)
    else if !Injectable(t) then (Halted, setup + Creation(o, procPath))
    else
      (Exit(0), setup + Creation(o, procPath) + [Injected(dllPath, o.noTimeout)] + AfterInjection(o, injectOk)
                + [ClosedProcess, ClosedThread])
  }

  /** The SetEnvironmentVariable calls for a Steam executable. */
  method SetSteamEnvironment(o: Options, t: ProcType) returns (ghost effects: seq<Effect>)
    ensures effects == SteamSetup(t, o)
  {
    effects := [];
    if t == Steam {
      var appId := if !o.launchCS then STEAM_APP_ID else "???";
      effects := effects + [SetEnv("SteamGameId", appId)];
      if o.skipLauncher {
        effects := effects + [SetEnv("SteamAppID", appId)];
      }
    }
  }

  /** The successful CreateProcess with its flags, then the requested affinity. */
  method CreateSuspended(o: Options, procPath: string) returns (createFlags: bv32, ghost effects: seq<Effect>)
    ensures createFlags == CreateFlags(o) && createFlags & CREATE_SUSPENDED == CREATE_SUSPENDED
    ensures effects == Creation(o, procPath)
  {
    createFlags := CREATE_SUSPENDED;
    if o.setPriority {
      createFlags := createFlags | o.priority;
    }
    AlwaysCreatedSuspended(o);
    effects := [Created(procPath, createFlags)];
    if o.affinity != 0 {
      effects := effects + [SetAffinity(o.affinity)];
    }
  }

  /** After a successful injection attempt: terminate, or resume and optionally wait. */
  method FinishInjection(o: Options, injectionSucceeded: bool) returns (ghost effects: seq<Effect>)
    ensures effects == AfterInjection(o, injectionSucceeded)
  {
    if !injectionSucceeded {
      effects := [Terminated];
    } else {
      effects := [Resumed];
      if o.waitForClose {
        effects := effects + [Waited];
      }
    }
  }

  /** The process is waited for exactly when injection succeeded and `waitForClose` was asked for. */
  lemma WaitedOnlyAfterSuccess(o: Options, injectOk: bool)
    ensures Waited in AfterInjection(o, injectOk) <==> injectOk && o.waitForClose
    ensures (Resumed in AfterInjection(o, injectOk)) != (Terminated in AfterInjection(o, injectOk))
  {
  }

  /** Steam setup, CreateProcess (suspended), affinity, injection, terminate or resume, and the two CloseHandle calls. */
  method LaunchProcess(o: Options, t: ProcType, procPath: string, dllPath: string, createError: Option<u32>, injectOk: bool)
    returns (outcome: Outcome, ghost trace: seq<Effect>)
    ensures (outcome, trace) == ProcessStage(o, t, procPath, dllPath, createError, injectOk)
  {
    trace := SetSteamEnvironment(o, t);
    if createError.Some? {
      // access denied, elevation required and other errors differ only in the message
      return Exit(1), trace;
    }
    var createFlags;
    ghost var creation;
    createFlags, creation := CreateSuspended(o, procPath);
    trace := trace + creation;
    var injectionSucceeded := false;
    match t {
      case Steam | Normal | GOG =>
        trace := trace + [Injected(dllPath, o.noTimeout)];
        injectionSucceeded := injectOk;
      case _ =>
        return Halted, trace;
    }
    ghost var after := FinishInjection(o, injectionSucceeded);
    trace := trace + after + [ClosedProcess, ClosedThread];
    return Exit(0), trace;
  }

  /** The number of occurrences of `e` in `trace`. */
  function Count(trace: seq<Effect>, e: Effect): nat
  {
    if |trace| == 0 then 0 else (if trace[0] == e then 1 else 0) + Count(trace[1..], e)
  }

  lemma {:induction false} CountAppend(a: seq<Effect>, b: seq<Effect>, e: Effect)
    ensures Count(a + b, e) == Count(a, e) + Count(b, e)
  {
    if |a| > 0 {
      assert (a + b)[1..] == a[1..] + b;
      CountAppend(a[1..], b, e);
    } else {
      assert a + b == b;
    }
  }

  lemma {:induction false} CountAbsent(a: seq<Effect>, e: Effect)
    requires e !in a
    ensures Count(a, e) == 0
  {
    if |a| > 0 {
      CountAbsent(a[1..], e);
    }
  }

  /**
    Once the process exists and the type is injectable, main returns 0, terminates
    the process exactly when injection failed and resumes it exactly when injection
    succeeded, never both.
  */
  lemma InjectThenTerminateOrResume(o: Options, t: ProcType, procPath: string, dllPath: string, injectOk: bool)
    requires Injectable(t)
    ensures var (outcome, trace) := ProcessStage(o, t, procPath, dllPath, None, injectOk);
      outcome == Exit(0) && (Terminated in trace <==> !injectOk) && (Resumed in trace <==> injectOk)
  {
    var created := SteamSetup(t, o) + Creation(o, procPath);
    SetupOnlySetsEnv(t, o);
    assert Terminated !in created && Resumed !in created;
  }

  /** Once the process exists and the type is injectable, each handle is closed exactly once, as the last two effects. */
  lemma HandlesClosedOnce(o: Options, t: ProcType, procPath: string, dllPath: string, injectOk: bool)
    requires Injectable(t)
    ensures var trace := ProcessStage(o, t, procPath, dllPath, None, injectOk).1;
      Count(trace, ClosedProcess) == 1 && Count(trace, ClosedThread) == 1 &&
      trace[|trace| - 2..] == [ClosedProcess, ClosedThread]
  {
    var created := SteamSetup(t, o) + Creation(o, procPath);
    var head := created + [Injected(dllPath, o.noTimeout)] + AfterInjection(o, injectOk);
    assert ProcessStage(o, t, procPath, dllPath, None, injectOk).1 == head + [ClosedProcess, ClosedThread];
    SetupOnlySetsEnv(t, o);
    ClosedOnceAtEnd(head);
  }

  /** A trace that ends with the two CloseHandle calls and has none before closes each handle once. */
  lemma ClosedOnceAtEnd(head: seq<Effect>)
    requires ClosedProcess !in head && ClosedThread !in head
    ensures var trace := head + [ClosedProcess, ClosedThread];
      Count(trace, ClosedProcess) == 1 && Count(trace, ClosedThread) == 1 &&
      trace[|trace| - 2..] == [ClosedProcess, ClosedThread]
  {
    var tail := [ClosedProcess, ClosedThread];
    CountAbsent(head, ClosedProcess);
    CountAbsent(head, ClosedThread);
    CountAppend(head, tail, ClosedProcess);
    CountAppend(head, tail, ClosedThread);
    assert tail[1..] == [ClosedThread];
    assert Count(tail, ClosedProcess) == 1 + Count([ClosedThread], ClosedProcess);
    assert Count(tail, ClosedThread) == Count([ClosedThread], ClosedThread);
    assert (head + tail)[|head + tail| - 2..] == tail;
  }

  lemma SetupOnlySetsEnv(t: ProcType, o: Options)
    ensures forall e | e in SteamSetup(t, o) :: e.SetEnv?
  {
  }

  /** The process is created, after the Steam setup and before anything else is done to it, and the DLL is injected into it. */
  lemma CreatedBeforeInjected(o: Options, t: ProcType, procPath: string, dllPath: string, injectOk: bool)
    requires Injectable(t)
    ensures var trace := ProcessStage(o, t, procPath, dllPath, None, injectOk).1;
      var n := |SteamSetup(t, o)|;
      n < |trace| && trace[..n] == SteamSetup(t, o) && trace[n] == Created(procPath, CreateFlags(o)) &&
      Injected(dllPath, o.noTimeout) in trace[n + 1..]
  {
    var trace := ProcessStage(o, t, procPath, dllPath, None, injectOk).1;
    var n := |SteamSetup(t, o)|;
    var k := if o.affinity != 0 then n + 2 else n + 1;
    assert trace[k] == Injected(dllPath, o.noTimeout);
    assert trace[n + 1..][k - n - 1] == trace[k];
  }

  /** A failed CreateProcess returns 1 with no process effect recorded. */
  lemma CreateFailureCreatesNothing(o: Options, t: ProcType, procPath: string, dllPath: string, err: u32, injectOk: bool)
    ensures var (outcome, trace) := ProcessStage(o, t, procPath, dllPath, Some(err), injectOk);
      outcome == Exit(1) && trace == SteamSetup(t, o) && forall e | e in trace :: e.SetEnv?
  {
  }

  /** For a type main cannot inject (a WinStore executable) it halts with the process created, suspended and unclosed. */
  lemma NonInjectableHalts(o: Options, t: ProcType, procPath: string, dllPath: string, injectOk: bool)
    requires !Injectable(t)
    ensures var (outcome, trace) := ProcessStage(o, t, procPath, dllPath, None, injectOk);
      outcome == Halted && Created(procPath, CreateFlags(o)) in trace &&
      Resumed !in trace && Terminated !in trace && ClosedProcess !in trace && ClosedThread !in trace &&
      forall e | e in trace :: !e.Injected?
  {
    SetupOnlySetsEnv(t, o);
    var trace := ProcessStage(o, t, procPath, dllPath, None, injectOk).1;
    assert trace[|SteamSetup(t, o)|] == Created(procPath, CreateFlags(o));
  }

  /** SteamGameId is set exactly for Steam; SteamAppID exactly for Steam with `skipLauncher`. */
  lemma SteamVariables(o: Options, t: ProcType)
    ensures (exists v :: SetEnv("SteamGameId", v) in SteamSetup(t, o)) <==> t == Steam
    ensures (exists v :: SetEnv("SteamAppID", v) in SteamSetup(t, o)) <==> t == Steam && o.skipLauncher
    ensures t == Steam && !o.launchCS ==> SteamSetup(t, o)[0] == SetEnv("SteamGameId", STEAM_APP_ID)
  {
    if t == Steam {
      assert SetEnv("SteamGameId", SteamAppId(o)) in SteamSetup(t, o);
      if o.skipLauncher {
        assert SetEnv("SteamAppID", SteamAppId(o)) in SteamSetup(t, o);
      }
    }
  }

  // ---------------------------------------------------------------- main

  /** What main decides before the Steam setup: exit early with a code, or launch with the hook info IdentifyEXE recorded. */
  datatype Plan = Abort(code: int) | Launch(options: Options, hook: HookInfo, procPath: string, dllPath: string)

  /** The hook info main declares before IdentifyEXE fills it in. */
  const FRESH_HOOK: HookInfo := HookInfo(Unknown, 0, 0)

  /** The executable main settles on, or None when its name or its file cannot be found. */
  function Runtime(env: Env, o: Options): Option<string>
  {
    match RuntimeName(env.configRuntimeName, env.loaderName)
    case None => None
    case Some((procName, custom)) =>
      match Locate(env.fileExists, env.runtimeDir, procName, custom, o.altExe)
      case NotFound(_) => None
      case Located(_, procPath) => Some(procPath)
  }

  /**
    IdentifyEXE on the chosen executable: as written, or, with `storeFix`, with the
    Microsoft Store fallback reachable.
  */
  function IdentifyRuntime(env: Env, b: Build, o: Options, procPath: string, storeFix: bool): Identification
  {
    if storeFix
    then IdentifyCorrected(procPath, o.launchCS, env.versionResource(procPath), env.image(procPath), b, "", FRESH_HOOK)
    else IdentifyAsWritten(procPath, o.launchCS, env.versionResource(procPath), env.image(procPath), b, "", FRESH_HOOK,
                           env.uninitialised)
  }

  function Prepare(env: Env, b: Build, storeFix: bool): (r: Plan)
    ensures r.Abort? ==> r.code == 0 || r.code == 1
    ensures r == Abort(0) <==>
      env.options.Some? &&
      var o := env.options.value;
      o.optionsOnly ||
      (!o.launchCS && o.crcOnly && Runtime(env, o).Some? && IdentifyRuntime(env, b, o, Runtime(env, o).value, storeFix).ok)
    ensures r.Launch? ==> env.options == Some(r.options) && !r.options.optionsOnly && !r.options.launchCS && !r.options.crcOnly
    ensures r.Launch? ==>
      Runtime(env, r.options) == Some(r.procPath) &&
      IdentifyRuntime(env, b, r.options, r.procPath, storeFix).ok && r.hook == IdentifyRuntime(env, b, r.options, r.procPath, storeFix).hook
  {
    match env.options
    case None => Abort(1)
    case Some(o) =>
      if o.optionsOnly then Abort(0)
      else if o.launchCS then Abort(1)
      else match Runtime(env, o)
        case None => Abort(1)
        case Some(procPath) =>
          var id := IdentifyRuntime(env, b, o, procPath, storeFix);
          if !id.ok then Abort(1)
          else if o.crcOnly then Abort(0)
          else
            var dllPath := DllPath(o.altDll, env.runtimeDir, id.suffix);
            if !env.fileExists(dllPath) || !DllAccepted(env.dll(dllPath), id.hook.packedVersion, b) then Abort(1)
            else Launch(o, id.hook, procPath, dllPath)
  }

  /**
    main: every early exit happens before any effect; otherwise the process stage
    runs.  `storeFix` selects the corrected IdentifyEXE instead of the one as written.
  */
  method RunLoader(env: Env, b: Build, storeFix: bool) returns (outcome: Outcome, ghost trace: seq<Effect>)
    ensures Prepare(env, b, storeFix).Abort? ==> outcome == Exit(Prepare(env, b, storeFix).code) && trace == []
    ensures Prepare(env, b, storeFix).Launch? ==>
      var p := Prepare(env, b, storeFix);
      (outcome, trace) == ProcessStage(p.options, p.hook.procType, p.procPath, p.dllPath, env.createError, env.injectOk)
  {
    trace := [];
    if env.options.None? {
      return Exit(1), trace;
    }
    var o := env.options.value;
    if o.optionsOnly {
      return Exit(0), trace;
    }
    if o.launchCS {
      return Exit(1), trace;
    }
    var named, procName, custom := ResolveRuntimeName(env.configRuntimeName, env.loaderName);
    if !named {
      return Exit(1), trace;
    }
    var located := LocateRuntime(env.fileExists, env.runtimeDir, procName, custom, o.altExe);
    if located.NotFound? {
      return Exit(1), trace;
    }
    var procPath := located.procPath;
    var identified, dllSuffix, procHookInfo;
    if storeFix {
      identified, dllSuffix, procHookInfo :=
        IdentifyExe(procPath, o.launchCS, env.versionResource(procPath), env.image(procPath), b, "", FRESH_HOOK);
    } else {
      identified, dllSuffix, procHookInfo :=
        IdentifyExeAsWritten(procPath, o.launchCS, env.versionResource(procPath), env.image(procPath), b, "", FRESH_HOOK,
                             env.uninitialised);
    }
    if !identified {
      return Exit(1), trace;
    }
    if o.crcOnly {
      return Exit(0), trace;
    }
    var dllPath: string;
    if |o.altDll| > 0 {
      dllPath := o.altDll;
    } else {
      dllPath := env.runtimeDir + BASE_DLL_NAME + "_" + dllSuffix + ".dll";
    }
    if !env.fileExists(dllPath) {
      return Exit(1), trace;
    }
    var dllOk := CheckDll(env.dll(dllPath), procHookInfo.packedVersion, b);
    if !dllOk {
      return Exit(1), trace;
    }
    outcome, trace := LaunchProcess(o, procHookInfo.procType, procPath, dllPath, env.createError, env.injectOk);
  }

  /**
    A launch happens only for an existing executable of a supported type, with an
    existing DLL that loads as a 64-bit image, is signed, and exports the core data
    version and exactly the packed version recorded for the executable.
  */
  lemma LaunchOnlyWithAcceptedDll(env: Env, b: Build, storeFix: bool)
    requires Prepare(env, b, storeFix).Launch?
    ensures var p := Prepare(env, b, storeFix);
      env.fileExists(p.procPath) && env.fileExists(p.dllPath) && Supported(p.hook.procType) &&
      DllAccepted(env.dll(p.dllPath), p.hook.packedVersion, b) && p.hook.packedVersion == PackedVersionOf(b, p.hook.version)
  {
    var o := env.options.value;
    var (procName, custom) := RuntimeName(env.configRuntimeName, env.loaderName).value;
    LocatedPathExists(env.fileExists, env.runtimeDir, procName, custom, o.altExe);
  }

  /**
    The hook info of a launch is the executable's own: the version from its
    resource (for a "WinGDK" path the hard-coded one with `storeFix`, the
    uninitialised value without), and the type its scan gives.
  */
  lemma LaunchedHookIsExecutables(env: Env, b: Build, storeFix: bool)
    requires Prepare(env, b, storeFix).Launch?
    ensures var p := Prepare(env, b, storeFix);
      ScanResult(p.procPath, env.image(p.procPath)) == Some(p.hook.procType) &&
      (Contains(p.procPath, "WinGDK") ==> p.hook.version == if storeFix then MsStoreVersion(b) else env.uninitialised) &&
      (!Contains(p.procPath, "WinGDK") ==>
         FileVersionData(env.versionResource(p.procPath)).Some? &&
         p.hook.version == FileVersionData(env.versionResource(p.procPath)).value.0)
  {
  }

  /** With `-crconly` the run ends without a launch; the code is 0 exactly when the executable was identified. */
  lemma CrcOnlyStopsAfterIdentification(env: Env, b: Build, storeFix: bool)
    requires env.options.Some? && env.options.value.crcOnly
    ensures var o := env.options.value;
      Prepare(env, b, storeFix).Abort? &&
      (Prepare(env, b, storeFix).code == 0 <==>
         o.optionsOnly || (!o.launchCS && Runtime(env, o).Some? && IdentifyRuntime(env, b, o, Runtime(env, o).value, storeFix).ok))
  {
  }

  /** An installation holding only the Microsoft Store executable and, as `-altdll`, a DLL built for it. */
  function StoreInstall(b: Build, storeFix: bool): Env
  {
    var o := Options(false, false, "", "obse64.dll", false, false, 0, 0, false, false, false);
    var version: u64 := if storeFix then MsStoreVersion(b) else 0;
    var facts := DllFacts(true, true, Some(CoreVersionData(b.coreDataVersion, PackedVersionOf(b, version))), true);
    Env(Some(o), "", "obse64_loader.exe", "",
        (f: string) => f == MS_STORE_RUNTIME || f == "obse64.dll",
        (f: string) => None, (f: string) => Failed(0), (f: string) => facts,
        None, true, 0)
  }

  /**
    A Microsoft Store executable passes identification and the DLL checks, yet main
    halts after creating its process: only Steam, Normal and GOG are injected.  As
    written, the DLL it accepts is the one built for the uninitialised version.
  */
  lemma StoreLaunchHalts(b: Build, storeFix: bool)
    ensures var env := StoreInstall(b, storeFix);
      var p := Prepare(env, b, storeFix);
      p.Launch? && p.hook.procType == WinStore && p.procPath == MS_STORE_RUNTIME &&
      p.hook.version == (if storeFix then MsStoreVersion(b) else 0) &&
      ProcessStage(p.options, p.hook.procType, p.procPath, p.dllPath, env.createError, env.injectOk).0 == Halted
  {
    var env := StoreInstall(b, storeFix);
    assert OccursAt(MS_STORE_RUNTIME, "WinGDK", 19);
    assert |Codes(env.loaderName)| != |Codes(DEFAULT_RUNTIME)|;
    assert "" + DEFAULT_RUNTIME == DEFAULT_RUNTIME && "" + MS_STORE_RUNTIME == MS_STORE_RUNTIME;
    assert !env.fileExists(DEFAULT_RUNTIME) && env.fileExists(MS_STORE_RUNTIME);
    assert Runtime(env, env.options.value) == Some(MS_STORE_RUNTIME);
  }

  /**
    Without `altDll`, the DLL main accepts is `obse64_<major>_<minor>_<build>[_gog|_winstore].dll`
    of the version and type recorded for the executable.
  */
  lemma DllNamedAfterVersion(env: Env, b: Build, storeFix: bool)
    requires Prepare(env, b, storeFix).Launch? && env.options.value.altDll == ""
    ensures var p := Prepare(env, b, storeFix);
      p.dllPath == DllPath("", env.runtimeDir, VersionSuffix(p.hook.version) + TypeTag(p.hook.procType))
  {
  }
}
