/**
 * The provisioning run of `main` (main.go:40-219) as a fail-fast sequence of external calls.
 *
 * Every external effect — the name and catalog loaders, the random source, libvirt, the
 * file system, HTTP, the `sudo`/`zfs`/`qemu-img`/`genisoimage` processes, template
 * rendering and `DomainCreateXML` — is an oracle outcome in `Env`. A run is the list of
 * calls it makes, in order, and the way it exits.
 *
 * The specification is `FullPlan`: the calls of a run in which every call succeeds,
 * computed from the flags and the values the oracle hands back. A real run is the plan
 * cut just after the first call that does not let the run go on (`FailFast`); how it
 * exits depends only on that last call (`Verdict`).
 */
module Provisioning {
  import opened Wrappers
  import opened Catalog
  import opened HardwareAddr
  import opened Paths

  /** The command-line flags (main.go:32-38). */
  datatype Flags = Flags(distro: string, name: string, zvolPrefix: string, zvolSize: int, memory: int)

  /** The flags' defaults. */
  const DEFAULT_FLAGS := Flags("alpine-edge", "", "rpool/mkvm-test/", 0, 512)

  /**
   * A run with every flag at its default draws a random name, installs alpine-edge on a
   * zvol of the distro's minimum size under rpool/mkvm-test/, with 512 MiB of RAM.
   */
  lemma DefaultFlags(ds: seq<Distro>, k: nat, vm: string)
    requires k < |ds| && ds[k].name == "alpine-edge"
    requires forall j :: 0 <= j < |ds| && j != k ==> ds[j].name != "alpine-edge"
    ensures NameCalls(DEFAULT_FLAGS) == [GenerateName]
    ensures Lookup(ds, DEFAULT_FLAGS.distro) == Some(ds[k])
    ensures SizeAfter(ds, DEFAULT_FLAGS.distro, DEFAULT_FLAGS.zvolSize) == ds[k].minSize
    ensures ZvolName(DEFAULT_FLAGS.zvolPrefix, vm) == "rpool/mkvm-test/" + vm
    ensures MemoryKiB(DEFAULT_FLAGS.memory) == 524288
  {
    SizeOfSingleMatch(ds, "alpine-edge", 0, k);
  }

  /** What `http.Get` returns: a transport error, or a response with its code and status line. */
  datatype HttpReply = TransportError | Reply(code: int, status: string)

  /** The outcome of every external step the run depends on. */
  datatype Env = Env(
    randomName: Option<string>,          // getName: a common blade name, or an error
    catalog: Option<seq<Distro>>,        // getDistros: the decoded catalog, or an error
    entropy: Option<Bytes6>,             // crypto/rand.Read of six bytes
    libvirtUp: bool,                     // connectToLibvirt: dial, polkit, connect
    userCacheDir: Option<string>,        // os.UserCacheDir
    cached: set<string>,                 // the files os.Stat finds
    createOk: bool,                      // os.Create of the cache entry
    http: HttpReply,                     // http.Get of the image
    copyOk: bool,                        // io.Copy of the body into the cache entry
    cloudConfig: Option<seq<string>>,    // rendering cloud-config.txtar: the archive's file names
    tempDir: Option<string>,             // os.MkdirTemp
    writeOk: string -> bool,             // creating and writing one seed file
    commandOk: seq<string> -> bool,      // exit status of run(args...)
    uuid: Option<string>,                // uuid.New: None when the random source fails and it panics
    domainXmlOk: bool,                   // rendering base.xml
    created: Result<string, string>      // DomainCreateXML: the domain's name, or libvirt's error text
  )

  /** Which part of the run a call belongs to. */
  datatype Stage =
    | NameGeneration | CatalogLoad | DistroLookup | MacGeneration | LibvirtConnect | Confirmation
    | CacheLocation | CacheFileCreate | ImageFetch | ImageCopy | CloudConfigRender | TempDirCreate
    | SeedFileWrite | SeedImageBuild | UuidGeneration | VolumeCreate | ImageImport | DomainRender | DomainCreate

  /** The plan shown before the confirmation prompt (main.go:90-95). */
  datatype Summary = Summary(vm: string, zvol: string, sizeGB: int, imageUrl: string, mac: string, ramMB: int)

  /** The values substituted into base.xml (main.go:190-204). */
  datatype DomainParams = DomainParams(name: string, uuid: string, memoryKiB: int, zvol: string, seed: string, mac: string)

  /** The external commands the run executes, each through `run` (main.go:248-254). */
  datatype Command =
    | Genisoimage(iso: string, dir: string)      // main.go:160-173
    | ZfsCreate(sizeGB: int, zvol: string)       // main.go:179-183
    | QemuImgConvert(qcow: string, zvol: string) // main.go:185-188

  /** The argument vector handed to `run`. */
  function Argv(cmd: Command): seq<string> {
    match cmd
    case Genisoimage(iso, dir) =>
      ["genisoimage", "-output", iso, "-volid", "cidata", "-joliet", "-rock",
       Join(dir, "meta-data"), Join(dir, "user-data")]
    case ZfsCreate(size, zvol) => ["sudo", "zfs", "create", "-V", SizeArg(size), zvol]
    case QemuImgConvert(qcow, zvol) => ["sudo", "qemu-img", "convert", "-O", "raw", qcow, DevicePath(zvol)]
  }

  function CommandStage(cmd: Command): Stage {
    match cmd
    case Genisoimage(_, _) => SeedImageBuild
    case ZfsCreate(_, _) => VolumeCreate
    case QemuImgConvert(_, _) => ImageImport
  }

  /** One external call of the run. */
  datatype Call =
    | GenerateName
    | LoadCatalog
    | ListKnownDistros(requested: string, known: seq<string>)
    | ReadRandom
    | ConnectLibvirt
    | Confirm(summary: Summary)
    | LocateUserCache
    | MakeDir(path: string)
    | StatFile(path: string)
    | CreateFile(path: string)
    | HttpGet(url: string)
    | SaveBody(path: string)
    | RenderCloudConfig(vm: string)
    | MakeTempDir
    | WriteSeedFile(path: string)
    | NewUuid
    | Exec(cmd: Command)
    | RenderDomain(params: DomainParams)
    | CreateDomain(params: DomainParams)

  /** How a run ends. Only `Created` exits with status 0. */
  datatype Exit =
    | Created(domain: string)
    | UnknownDistro(requested: string, known: seq<string>)
    | DownloadRefused(url: string, status: string)
    | Fatal(stage: Stage)
    | DomainFailed(vm: string, cause: string, remedy: string)
    | Panicked(stage: Stage)

  datatype Run = Run(calls: seq<Call>, exit: Exit)

  /** `log.Fatal` and `os.Exit(1)` give status 1; an unrecovered panic makes the Go runtime exit with 2. */
  function ExitCode(e: Exit): int {
    if e.Created? then 0 else if e.Panicked? then 2 else 1
  }

  function StageOf(c: Call): Stage {
    match c
    case GenerateName => NameGeneration
    case LoadCatalog => CatalogLoad
    case ListKnownDistros(_, _) => DistroLookup
    case ReadRandom => MacGeneration
    case ConnectLibvirt => LibvirtConnect
    case Confirm(_) => Confirmation
    case LocateUserCache => CacheLocation
    case MakeDir(_) => CacheLocation
    case StatFile(_) => CacheLocation
    case CreateFile(_) => CacheFileCreate
    case HttpGet(_) => ImageFetch
    case SaveBody(_) => ImageCopy
    case RenderCloudConfig(_) => CloudConfigRender
    case MakeTempDir => TempDirCreate
    case WriteSeedFile(_) => SeedFileWrite
    case NewUuid => UuidGeneration
    case Exec(cmd) => CommandStage(cmd)
    case RenderDomain(_) => DomainRender
    case CreateDomain(_) => DomainCreate
  }

  /**
   * Does the run go on after this call? Listing the known distros is always followed by
   * exit(1); the `MkdirAll` results are ignored, a failing stat only means a cache miss,
   * and any answer at the prompt proceeds.
   */
  predicate Continues(env: Env, c: Call) {
    match c
    case GenerateName => env.randomName.Some?
    case LoadCatalog => env.catalog.Some?
    case ListKnownDistros(_, _) => false
    case ReadRandom => env.entropy.Some?
    case ConnectLibvirt => env.libvirtUp
    case Confirm(_) => true
    case LocateUserCache => env.userCacheDir.Some?
    case MakeDir(_) => true
    case StatFile(_) => true
    case CreateFile(_) => env.createOk
    case HttpGet(_) => Fetched(env)
    case SaveBody(_) => env.copyOk
    case RenderCloudConfig(_) => env.cloudConfig.Some?
    case MakeTempDir => env.tempDir.Some?
    case WriteSeedFile(path) => env.writeOk(path)
    case NewUuid => env.uuid.Some?
    case Exec(cmd) => env.commandOk(Argv(cmd))
    case RenderDomain(_) => env.domainXmlOk
    case CreateDomain(_) => env.created.Success?
  }

  /** The image request was answered with 200 OK. */
  predicate Fetched(env: Env) {
    env.http.Reply? && env.http.code == 200
  }

  /** The exit of a run whose last call is `c`. */
  function Verdict(env: Env, c: Call): Exit {
    if c.ListKnownDistros? then UnknownDistro(c.requested, c.known)
    else if c.HttpGet? && env.http.Reply? then DownloadRefused(c.url, env.http.status)
    else if c.CreateDomain? then
      match env.created
      case Success(domain) => Created(domain)
      case Failure(cause) => DomainFailed(c.params.name, cause, Remedy(c.params.zvol))
    else if c.NewUuid? then Panicked(UuidGeneration)
    else Fatal(StageOf(c))
  }

  predicate AllContinue(env: Env, calls: seq<Call>) {
    forall i :: 0 <= i < |calls| ==> Continues(env, calls[i])
  }

  /** The plan up to and including the first call that stops the run. */
  function FailFast(plan: seq<Call>, env: Env): seq<Call> {
    if plan == [] then []
    else if Continues(env, plan[0]) then [plan[0]] + FailFast(plan[1..], env)
    else [plan[0]]
  }

  // ---------------------------------------------------------------------------
  // The plan of a run in which every call succeeds.
  // ---------------------------------------------------------------------------

  /** The values `main` has settled once the distro is found and the MAC is drawn. */
  datatype Setup = Setup(vm: string, distro: Distro, size: int, zvol: string, mac: string, ramMB: int)

  function VmName(f: Flags, env: Env): string {
    if f.name == "" then env.randomName.GetOr("") else f.name
  }

  function MacText(env: Env): string {
    match env.entropy
    case Some(raw) => Format(Normalize(raw))
    case None => ""
  }

  function NameCalls(f: Flags): seq<Call> {
    if f.name == "" then [GenerateName] else []
  }

  function FullPlan(f: Flags, env: Env): seq<Call> {
    NameCalls(f) + ([LoadCatalog] + CatalogPlan(f, env))
  }

  function CatalogPlan(f: Flags, env: Env): seq<Call> {
    match env.catalog
    case None => []
    case Some(ds) =>
      match Lookup(ds, f.distro)
      case None => [ListKnownDistros(f.distro, Names(ds))]
      case Some(d) => MachinePlan(env, SetupOf(f, env, d, SizeAfter(ds, f.distro, f.zvolSize)))
  }

  function SetupOf(f: Flags, env: Env, d: Distro, size: int): Setup {
    var vm := VmName(f, env);
    Setup(vm, d, size, ZvolName(f.zvolPrefix, vm), MacText(env), f.memory)
  }

  function SummaryOf(s: Setup): Summary {
    Summary(s.vm, s.zvol, s.size, s.distro.downloadUrl, s.mac, s.ramMB)
  }

  function MachinePlan(env: Env, s: Setup): seq<Call> {
    [ReadRandom] + ([ConnectLibvirt] + DeployPlan(env, s))
  }

  function DeployPlan(env: Env, s: Setup): seq<Call> {
    [Confirm(SummaryOf(s))] + ([LocateUserCache] + AfterCacheDir(env, s, CacheDir(env.userCacheDir.GetOr(""))))
  }

  /** The four phases that follow the confirmation: image cache, seed, storage, domain. */
  function AfterCacheDir(env: Env, s: Setup, cdir: string): seq<Call> {
    var qcow := QcowPath(cdir, s.distro.sha256Sum);
    ImagePlan(env, cdir, s.distro)
    + (SeedPlan(env, cdir, s.vm, s.distro.name)
       + (StoragePlan(s.size, s.zvol, qcow)
          + DomainPlan(DomainOf(env, s, cdir))))
  }

  /** The image cache: make the directories, look for `<cdir>/qcow2/<checksum>`, download on a miss. */
  function ImagePlan(env: Env, cdir: string, d: Distro): seq<Call> {
    var qcow := QcowPath(cdir, d.sha256Sum);
    [MakeDir(Join(cdir, "qcow2"))] + ([MakeDir(Join(cdir, "seed"))] + ([StatFile(qcow)] + DownloadPlan(env, d, qcow)))
  }

  /** A cache miss creates the entry, then fetches and copies the image; a hit does nothing. */
  function DownloadPlan(env: Env, d: Distro, qcow: string): seq<Call> {
    if qcow in env.cached then [] else [CreateFile(qcow)] + ([HttpGet(d.downloadUrl)] + [SaveBody(qcow)])
  }

  /** The seed: render cloud-config, make a temporary directory, then its contents and packaging. */
  function SeedPlan(env: Env, cdir: string, vm: string, distroName: string): seq<Call> {
    [RenderCloudConfig(vm)] + ([MakeTempDir] + SeedContents(env, cdir, vm, distroName))
  }

  /** Write the archive's files into the temporary directory, package them with genisoimage. */
  function SeedContents(env: Env, cdir: string, vm: string, distroName: string): seq<Call> {
    var dir := env.tempDir.GetOr("");
    SeedWrites(dir, env.cloudConfig.GetOr([])) + [Exec(Genisoimage(IsoPath(cdir, vm, distroName), dir))]
  }

  /** One write per archive file, in archive order. */
  function SeedWrites(dir: string, files: seq<string>): seq<Call> {
    if files == [] then [] else [WriteSeedFile(Join(dir, files[0]))] + SeedWrites(dir, files[1..])
  }

  /** Exactly one write per archive file, in archive order, each under the temporary directory. */
  lemma {:induction false} SeedWritesShape(dir: string, files: seq<string>)
    ensures |SeedWrites(dir, files)| == |files|
    ensures forall i :: 0 <= i < |files| ==> SeedWrites(dir, files)[i] == WriteSeedFile(Join(dir, files[i]))
  {
    if files != [] {
      SeedWritesShape(dir, files[1..]);
      forall i | 0 <= i < |files| ensures SeedWrites(dir, files)[i] == WriteSeedFile(Join(dir, files[i])) {
        if i > 0 {
          assert files[1..][i - 1] == files[i];
        }
      }
    }
  }

  /** Writing file `i` either fails and stops, or is followed by the writes of the later files. */
  lemma SeedWriteStep(env: Env, dir: string, files: seq<string>, i: nat)
    requires i < |files|
    ensures
      var w := WriteSeedFile(Join(dir, files[i]));
      FailFast(SeedWrites(dir, files[i..]), env) ==
        if env.writeOk(Join(dir, files[i])) then [w] + FailFast(SeedWrites(dir, files[i + 1..]), env) else [w]
  {
    assert files[i..][1..] == files[i + 1..];
    FailFastCons(env, WriteSeedFile(Join(dir, files[i])), SeedWrites(dir, files[i + 1..]));
  }

  /** The domain's uuid drawn just before the storage, then create the zvol and write the cached image onto its device. */
  function StoragePlan(size: int, zvol: string, qcow: string): seq<Call> {
    [NewUuid] + ([Exec(ZfsCreate(size, zvol))] + [Exec(QemuImgConvert(qcow, zvol))])
  }

  function DomainOf(env: Env, s: Setup, cdir: string): DomainParams {
    DomainParams(s.vm, env.uuid.GetOr(""), MemoryKiB(s.ramMB), s.zvol, IsoPath(cdir, s.vm, s.distro.name), s.mac)
  }

  /** The domain: render base.xml, then ask libvirt to create and start it. */
  function DomainPlan(params: DomainParams): seq<Call> {
    [RenderDomain(params)] + [CreateDomain(params)]
  }

  /** The calls a run makes. */
  function Trace(f: Flags, env: Env): seq<Call> {
    FailFast(FullPlan(f, env), env)
  }

  // ---------------------------------------------------------------------------
  // Fail-fast bookkeeping.
  // ---------------------------------------------------------------------------

  /** The first call of a plan is always made; the rest follows only if it let the run go on. */
  lemma FailFastCons(env: Env, c: Call, rest: seq<Call>)
    ensures FailFast([c] + rest, env) == if Continues(env, c) then [c] + FailFast(rest, env) else [c]
  {
    assert ([c] + rest)[0] == c;
    assert ([c] + rest)[1..] == rest;
  }

  /** Two leading calls: the second is made only if the first let the run go on. */
  lemma FailFastTwo(env: Env, c1: Call, c2: Call, rest: seq<Call>)
    ensures
      FailFast([c1] + ([c2] + rest), env) ==
        if !Continues(env, c1) then [c1]
        else if !Continues(env, c2) then [c1] + [c2]
        else [c1] + [c2] + FailFast(rest, env)
  {
    FailFastCons(env, c1, [c2] + rest);
    FailFastCons(env, c2, rest);
    AppendAssoc([c1], [c2], FailFast(rest, env));
  }

  /** The last call of a non-empty list. */
  function LastCall(calls: seq<Call>): Call
    requires calls != []
  {
    calls[|calls| - 1]
  }

  /** A command lets the run go on exactly when it exits with status 0; otherwise the run ends with the fatal exit of its stage. */
  lemma CommandOutcome(env: Env, cmd: Command)
    ensures Continues(env, Exec(cmd)) <==> env.commandOk(Argv(cmd))
    ensures Verdict(env, Exec(cmd)) == Fatal(CommandStage(cmd))
  {
  }

  /** Calls that all let the run go on are made in full, and the rest of the plan follows. */
  lemma {:induction false} FailFastAfter(env: Env, done: seq<Call>, rest: seq<Call>)
    requires AllContinue(env, done)
    ensures FailFast(done + rest, env) == done + FailFast(rest, env)
  {
    if done == [] {
      assert done + rest == rest;
    } else {
      var tail := done[1..];
      assert done == [done[0]] + tail;
      AppendAssoc([done[0]], tail, rest);
      assert AllContinue(env, tail) by {
        forall i | 0 <= i < |tail| ensures Continues(env, tail[i]) {
          assert tail[i] == done[i + 1];
        }
      }
      FailFastAfter(env, tail, rest);
      FailFastCons(env, done[0], tail + rest);
      AppendAssoc([done[0]], tail, FailFast(rest, env));
    }
  }

  /** A plan cut by a call that stops the run is not affected by what would come after it. */
  lemma {:induction false} FailFastStopped(env: Env, phase: seq<Call>, rest: seq<Call>)
    requires FailFast(phase, env) != [] && !Continues(env, LastCall(FailFast(phase, env)))
    ensures FailFast(phase + rest, env) == FailFast(phase, env)
  {
    assert (phase + rest)[0] == phase[0];
    assert (phase + rest)[1..] == phase[1..] + rest;
    if Continues(env, phase[0]) {
      var cut := FailFast(phase[1..], env);
      assert FailFast(phase, env) == [phase[0]] + cut;
      assert cut != [] && LastCall(cut) == LastCall(FailFast(phase, env));
      FailFastStopped(env, phase[1..], rest);
    }
  }

  /** A fail-fast prefix whose last call let the run go on took the whole plan. */
  lemma {:induction false} FailFastRanAll(env: Env, plan: seq<Call>)
    requires FailFast(plan, env) == [] || Continues(env, LastCall(FailFast(plan, env)))
    ensures FailFast(plan, env) == plan && AllContinue(env, plan)
  {
    if plan != [] && Continues(env, plan[0]) {
      var rest := FailFast(plan[1..], env);
      assert FailFast(plan, env) == [plan[0]] + rest;
      if rest != [] {
        assert LastCall(rest) == LastCall(FailFast(plan, env));
      }
      FailFastRanAll(env, plan[1..]);
      assert plan == [plan[0]] + plan[1..];
      forall i | 0 <= i < |plan| ensures Continues(env, plan[i]) {
        if i > 0 {
          assert plan[i] == plan[1..][i - 1];
        }
      }
    }
  }

  /**
   * What a phase of the run guarantees: it made the calls of its plan up to the first
   * that stopped the run and, if it stopped, reports that call's exit.
   */
  predicate PhaseDone(env: Env, phase: seq<Call>, calls: seq<Call>, stop: Option<Exit>) {
    && calls == FailFast(phase, env)
    && (stop.None? ==> calls == [] || Continues(env, LastCall(calls)))
    && (stop.Some? ==> calls != [] && !Continues(env, LastCall(calls)) && stop.value == Verdict(env, LastCall(calls)))
  }

  lemma AppendAssoc(a: seq<Call>, b: seq<Call>, c: seq<Call>)
    ensures (a + b) + c == a + (b + c)
  {
  }

  lemma LastOfAppend(a: seq<Call>, b: seq<Call>)
    requires b != []
    ensures a + b != [] && LastCall(a + b) == LastCall(b)
  {
  }

  /** Records a whole phase of the run. */
  lemma EmitPhase(env: Env, plan: seq<Call>, calls: seq<Call>, phase: seq<Call>, later: seq<Call>,
                  segment: seq<Call>, stop: Option<Exit>)
    requires FailFast(plan, env) == calls + FailFast(phase + later, env)
    requires PhaseDone(env, phase, segment, stop)
    ensures stop.None? ==> FailFast(plan, env) == (calls + segment) + FailFast(later, env)
    ensures stop.Some? ==> FailFast(plan, env) == calls + segment
  {
    if stop.None? {
      FailFastRanAll(env, phase);
      FailFastAfter(env, phase, later);
      AppendAssoc(calls, segment, FailFast(later, env));
    } else {
      FailFastStopped(env, phase, later);
    }
  }

  // ---------------------------------------------------------------------------
  // The calls each part of the run makes.
  // ---------------------------------------------------------------------------

  /** The name and the catalog come first; either can end the run. */
  lemma FrontTrace(f: Flags, env: Env, rest: seq<Call>)
    ensures FailFast(NameCalls(f) + ([LoadCatalog] + rest), env) ==
      if f.name == "" && env.randomName.None? then [GenerateName]
      else if env.catalog.None? then NameCalls(f) + [LoadCatalog]
      else NameCalls(f) + [LoadCatalog] + FailFast(rest, env)
  {
    FailFastCons(env, LoadCatalog, rest);
    AppendAssoc(NameCalls(f), [LoadCatalog], FailFast(rest, env));
    if f.name == "" {
      FailFastCons(env, GenerateName, [LoadCatalog] + rest);
    } else {
      assert NameCalls(f) + ([LoadCatalog] + rest) == [LoadCatalog] + rest;
    }
  }

  lemma RunTrace(f: Flags, env: Env)
    ensures Trace(f, env) ==
      if f.name == "" && env.randomName.None? then [GenerateName]
      else if env.catalog.None? then NameCalls(f) + [LoadCatalog]
      else NameCalls(f) + [LoadCatalog] + FailFast(CatalogPlan(f, env), env)
  {
    FrontTrace(f, env, CatalogPlan(f, env));
  }

  /** The random bytes and the libvirt connection: each stops the run when it fails. */
  lemma MachineTrace(env: Env, s: Setup)
    ensures
      FailFast(MachinePlan(env, s), env) ==
        if env.entropy.None? then [ReadRandom]
        else if !env.libvirtUp then [ReadRandom] + [ConnectLibvirt]
        else [ReadRandom] + [ConnectLibvirt] + FailFast(DeployPlan(env, s), env)
  {
    FailFastTwo(env, ReadRandom, ConnectLibvirt, DeployPlan(env, s));
  }

  /** Any answer at the prompt proceeds; without a cache directory nothing is installed. */
  lemma DeployTrace(env: Env, s: Setup)
    ensures
      FailFast(DeployPlan(env, s), env) ==
        if env.userCacheDir.None? then [Confirm(SummaryOf(s))] + [LocateUserCache]
        else
          [Confirm(SummaryOf(s))] + [LocateUserCache]
          + FailFast(AfterCacheDir(env, s, CacheDir(env.userCacheDir.GetOr(""))), env)
  {
    ConfirmTrace(env, SummaryOf(s), AfterCacheDir(env, s, CacheDir(env.userCacheDir.GetOr(""))));
  }

  /** The confirmation always goes on; locating the user cache stops the run when there is none. */
  lemma ConfirmTrace(env: Env, summary: Summary, rest: seq<Call>)
    ensures
      FailFast([Confirm(summary)] + ([LocateUserCache] + rest), env) ==
        if env.userCacheDir.None? then [Confirm(summary)] + [LocateUserCache]
        else [Confirm(summary)] + [LocateUserCache] + FailFast(rest, env)
  {
    FailFastTwo(env, Confirm(summary), LocateUserCache, rest);
  }

  /**
   * A cache miss creates the entry, fetches once from the catalog URL and copies the
   * body, stopping at the first failure; a hit makes no call at all.
   */
  lemma DownloadTrace(env: Env, d: Distro, qcow: string)
    ensures
      FailFast(DownloadPlan(env, d, qcow), env) ==
        if qcow in env.cached then []
        else if !env.createOk then [CreateFile(qcow)]
        else if !Fetched(env) then [CreateFile(qcow)] + [HttpGet(d.downloadUrl)]
        else [CreateFile(qcow)] + [HttpGet(d.downloadUrl)] + [SaveBody(qcow)]
  {
    if qcow !in env.cached {
      var cf, get, save := CreateFile(qcow), HttpGet(d.downloadUrl), SaveBody(qcow);
      FailFastCons(env, cf, [get] + [save]);
      FailFastCons(env, get, [save]);
      FailFastCons(env, save, []);
      AppendAssoc([cf], [get], FailFast([save], env));
    }
  }

  /** The image cache: both directories are made and the entry looked up before any download. */
  lemma ImageTrace(env: Env, cdir: string, d: Distro)
    ensures
      var qcow := QcowPath(cdir, d.sha256Sum);
      FailFast(ImagePlan(env, cdir, d), env) ==
        [MakeDir(Join(cdir, "qcow2")), MakeDir(Join(cdir, "seed")), StatFile(qcow)] + FailFast(DownloadPlan(env, d, qcow), env)
  {
    var qcow := QcowPath(cdir, d.sha256Sum);
    var download := DownloadPlan(env, d, qcow);
    var front := [MakeDir(Join(cdir, "qcow2")), MakeDir(Join(cdir, "seed")), StatFile(qcow)];
    assert ImagePlan(env, cdir, d) == front + download;
    FailFastAfter(env, front, download);
  }

  /** The seed: cloud-config is rendered and the directory made before any file is written. */
  lemma SeedTrace(env: Env, cdir: string, vm: string, distroName: string)
    ensures
      FailFast(SeedPlan(env, cdir, vm, distroName), env) ==
        if env.cloudConfig.None? then [RenderCloudConfig(vm)]
        else if env.tempDir.None? then [RenderCloudConfig(vm)] + [MakeTempDir]
        else [RenderCloudConfig(vm)] + [MakeTempDir] + FailFast(SeedContents(env, cdir, vm, distroName), env)
  {
    FailFastTwo(env, RenderCloudConfig(vm), MakeTempDir, SeedContents(env, cdir, vm, distroName));
  }

  /**
   * The storage: no zvol is created without a uuid, and the image is imported only onto
   * a zvol that was created.
   */
  lemma StorageTrace(env: Env, size: int, zvol: string, qcow: string)
    ensures
      FailFast(StoragePlan(size, zvol, qcow), env) ==
        if env.uuid.None? then [NewUuid]
        else if !env.commandOk(Argv(ZfsCreate(size, zvol))) then [NewUuid] + [Exec(ZfsCreate(size, zvol))]
        else StoragePlan(size, zvol, qcow)
  {
    var imageImport := Exec(QemuImgConvert(qcow, zvol));
    FailFastTwo(env, NewUuid, Exec(ZfsCreate(size, zvol)), [imageImport]);
    FailFastCons(env, imageImport, []);
  }

  /** The domain: libvirt is asked to create it only once base.xml rendered. */
  lemma DomainTrace(env: Env, params: DomainParams)
    ensures
      FailFast(DomainPlan(params), env) ==
        if env.domainXmlOk then DomainPlan(params) else [RenderDomain(params)]
  {
    FailFastCons(env, RenderDomain(params), [CreateDomain(params)]);
    FailFastCons(env, CreateDomain(params), []);
  }

  // ---------------------------------------------------------------------------
  // The run itself.
  // ---------------------------------------------------------------------------

  /**
   * The image cache (main.go:106-132): a hit on `<cdir>/qcow2/<checksum>` makes no
   * request; a miss creates the entry first, then fetches the image and copies the
   * body into it.
   */
  method EnsureImage(env: Env, cdir: string, d: Distro) returns (qcowPath: string, calls: seq<Call>, stop: Option<Exit>)
    ensures qcowPath == QcowPath(cdir, d.sha256Sum)
    ensures PhaseDone(env, ImagePlan(env, cdir, d), calls, stop)
  {
    qcowPath := QcowPath(cdir, d.sha256Sum);
    ImageTrace(env, cdir, d);
    DownloadTrace(env, d, qcowPath);
    var front := [MakeDir(Join(cdir, "qcow2")), MakeDir(Join(cdir, "seed")), StatFile(qcowPath)];
    if qcowPath in env.cached {
      return qcowPath, front, None;
    }
    var download := [CreateFile(qcowPath)];
    if !env.createOk {
      LastOfAppend(front, download);
      return qcowPath, front + download, Some(Fatal(CacheFileCreate));
    }
    download := download + [HttpGet(d.downloadUrl)];
    LastOfAppend(front, download);
    match env.http {
      case TransportError =>
        return qcowPath, front + download, Some(Fatal(ImageFetch));
      case Reply(code, status) =>
        if code != 200 {
          return qcowPath, front + download, Some(DownloadRefused(d.downloadUrl, status));
        }
    }
    download := download + [SaveBody(qcowPath)];
    LastOfAppend(front, download);
    calls := front + download;
    if !env.copyOk {
      return qcowPath, calls, Some(Fatal(ImageCopy));
    }
    stop := None;
  }

  /** Writes each archive file into the temporary directory, stopping at the first failed write. */
  method WriteSeed(env: Env, dir: string, files: seq<string>) returns (calls: seq<Call>, stop: Option<Exit>)
    ensures PhaseDone(env, SeedWrites(dir, files), calls, stop)
  {
    calls := [];
    assert files[0..] == files;
    for i := 0 to |files|
      invariant FailFast(SeedWrites(dir, files), env) == calls + FailFast(SeedWrites(dir, files[i..]), env)
      invariant calls == [] || Continues(env, LastCall(calls))
    {
      var path := Join(dir, files[i]);
      if !env.writeOk(path) {
        SeedWriteFails(env, dir, files, i, calls);
        return calls + [WriteSeedFile(path)], Some(Fatal(SeedFileWrite));
      }
      SeedWriteGoesOn(env, dir, files, i, calls);
      calls := calls + [WriteSeedFile(path)];
    }
    assert SeedWrites(dir, files[|files|..]) == [];
    stop := None;
  }

  /** A failed write ends the seed phase with that write. */
  lemma SeedWriteFails(env: Env, dir: string, files: seq<string>, i: nat, calls: seq<Call>)
    requires i < |files| && !env.writeOk(Join(dir, files[i]))
    requires FailFast(SeedWrites(dir, files), env) == calls + FailFast(SeedWrites(dir, files[i..]), env)
    ensures PhaseDone(env, SeedWrites(dir, files), calls + [WriteSeedFile(Join(dir, files[i]))], Some(Fatal(SeedFileWrite)))
  {
    SeedWriteStep(env, dir, files, i);
    assert LastCall(calls + [WriteSeedFile(Join(dir, files[i]))]) == WriteSeedFile(Join(dir, files[i]));
  }

  /** A successful write moves the seed phase on to the next file. */
  lemma SeedWriteGoesOn(env: Env, dir: string, files: seq<string>, i: nat, calls: seq<Call>)
    requires i < |files| && env.writeOk(Join(dir, files[i]))
    requires FailFast(SeedWrites(dir, files), env) == calls + FailFast(SeedWrites(dir, files[i..]), env)
    ensures
      var next := calls + [WriteSeedFile(Join(dir, files[i]))];
      && FailFast(SeedWrites(dir, files), env) == next + FailFast(SeedWrites(dir, files[i + 1..]), env)
      && Continues(env, LastCall(next))
  {
    var w := WriteSeedFile(Join(dir, files[i]));
    SeedWriteStep(env, dir, files, i);
    AppendAssoc(calls, [w], FailFast(SeedWrites(dir, files[i + 1..]), env));
    assert LastCall(calls + [w]) == w;
  }

  /** Writes the seed files, then packages meta-data and user-data into the ISO with genisoimage. */
  method FillSeed(env: Env, dir: string, files: seq<string>, isoPath: string) returns (calls: seq<Call>, stop: Option<Exit>)
    ensures PhaseDone(env, SeedWrites(dir, files) + [Exec(Genisoimage(isoPath, dir))], calls, stop)
    ensures calls != []
  {
    var iso := Exec(Genisoimage(isoPath, dir));
    var written;
    written, stop := WriteSeed(env, dir, files);
    EmitPhase(env, SeedWrites(dir, files) + [iso], [], SeedWrites(dir, files), [iso], written, stop);
    if stop.Some? {
      return written, stop;
    }

    // main.go:160-173
    FailFastCons(env, iso, []);
    calls := written + [iso];
    if !env.commandOk(Argv(iso.cmd)) {
      return calls, Some(Fatal(SeedImageBuild));
    }
  }

  /**
   * The seed (main.go:134-173): render cloud-config for the VM, write each file of the
   * archive into a fresh directory, package meta-data and user-data with genisoimage.
   */
  method BuildSeed(env: Env, cdir: string, vm: string, distroName: string)
    returns (isoPath: string, calls: seq<Call>, stop: Option<Exit>)
    ensures isoPath == IsoPath(cdir, vm, distroName)
    ensures PhaseDone(env, SeedPlan(env, cdir, vm, distroName), calls, stop)
  {
    SeedTrace(env, cdir, vm, distroName);
    isoPath := IsoPath(cdir, vm, distroName);
    calls := [RenderCloudConfig(vm)];
    if env.cloudConfig.None? {
      return isoPath, calls, Some(Fatal(CloudConfigRender));
    }
    calls := calls + [MakeTempDir];
    if env.tempDir.None? {
      return isoPath, calls, Some(Fatal(TempDirCreate));
    }
    var dir, files := env.tempDir.value, env.cloudConfig.value;
    assert SeedContents(env, cdir, vm, distroName) == SeedWrites(dir, files) + [Exec(Genisoimage(isoPath, dir))];
    var segment;
    segment, stop := FillSeed(env, dir, files, isoPath);
    LastOfAppend(calls, segment);
    calls := calls + segment;
  }

  /**
   * The storage (main.go:176-188): draw the domain's uuid (a failing random source makes
   * `uuid.New` panic), then `zfs create -V <n>G <zvol>`, then `qemu-img convert` onto
   * `/dev/zvol/<zvol>`.
   */
  method CreateVolume(env: Env, size: int, zvol: string, qcowPath: string)
    returns (vmId: string, calls: seq<Call>, stop: Option<Exit>)
    ensures PhaseDone(env, StoragePlan(size, zvol, qcowPath), calls, stop)
    ensures stop.None? ==> env.uuid == Some(vmId)
  {
    StorageTrace(env, size, zvol, qcowPath);
    calls := [NewUuid];
    if env.uuid.None? {
      return "", calls, Some(Panicked(UuidGeneration));
    }
    vmId := env.uuid.value;
    var create := ZfsCreate(size, zvol);
    calls := calls + [Exec(create)];
    if !env.commandOk(Argv(create)) {
      CommandOutcome(env, create);
      return vmId, calls, Some(Fatal(VolumeCreate));
    }
    var convert := QemuImgConvert(qcowPath, zvol);
    calls := calls + [Exec(convert)];
    if !env.commandOk(Argv(convert)) {
      CommandOutcome(env, convert);
      return vmId, calls, Some(Fatal(ImageImport));
    }
    stop := None;
  }

  /**
   * The domain (main.go:190-218): render base.xml and create the domain. When libvirt
   * refuses, the exit names the VM, carries libvirt's text unchanged and the command
   * that destroys the zvol.
   */
  method CreateVm(env: Env, params: DomainParams) returns (calls: seq<Call>, exit: Exit)
    ensures calls == FailFast(DomainPlan(params), env)
    ensures calls != [] && exit == Verdict(env, LastCall(calls))
  {
    DomainTrace(env, params);
    calls := [RenderDomain(params)];
    if !env.domainXmlOk {
      return calls, Fatal(DomainRender);
    }
    calls := calls + [CreateDomain(params)];
    match env.created {
      case Failure(cause) =>
        exit := DomainFailed(params.name, cause, Remedy(params.zvol));
      case Success(domain) =>
        exit := Created(domain);
    }
  }

  /** Everything after the cache directory is known (main.go:106-218), phase by phase. */
  method Install(env: Env, s: Setup, cdir: string) returns (calls: seq<Call>, exit: Exit)
    ensures calls == FailFast(AfterCacheDir(env, s, cdir), env)
    ensures calls != [] && exit == Verdict(env, LastCall(calls))
  {
    ghost var plan := AfterCacheDir(env, s, cdir);
    calls := [];

    var qcowPath, segment, stop := EnsureImage(env, cdir, s.distro);
    ghost var domain := DomainOf(env, s, cdir);
    ghost var later := SeedPlan(env, cdir, s.vm, s.distro.name) + (StoragePlan(s.size, s.zvol, qcowPath) + DomainPlan(domain));
    EmitPhase(env, plan, calls, ImagePlan(env, cdir, s.distro), later, segment, stop);
    calls := calls + segment;
    if stop.Some? {
      LastOfAppend([], segment);
      return calls, stop.value;
    }

    var isoPath;
    isoPath, segment, stop := BuildSeed(env, cdir, s.vm, s.distro.name);
    later := StoragePlan(s.size, s.zvol, qcowPath) + DomainPlan(domain);
    EmitPhase(env, plan, calls, SeedPlan(env, cdir, s.vm, s.distro.name), later, segment, stop);
    if stop.Some? {
      LastOfAppend(calls, segment);
      return calls + segment, stop.value;
    }
    calls := calls + segment;

    var ram := MemoryKiB(s.ramMB);
    var vmId;
    vmId, segment, stop := CreateVolume(env, s.size, s.zvol, qcowPath);
    EmitPhase(env, plan, calls, StoragePlan(s.size, s.zvol, qcowPath), DomainPlan(domain), segment, stop);
    if stop.Some? {
      LastOfAppend(calls, segment);
      return calls + segment, stop.value;
    }
    calls := calls + segment;

    var params := DomainParams(s.vm, vmId, ram, s.zvol, isoPath, s.mac);
    segment, exit := CreateVm(env, params);
    LastOfAppend(calls, segment);
    calls := calls + segment;
  }

  /** The run once the distro is known (main.go:80-88): draw the MAC, connect to libvirt, deploy. */
  method Launch(env: Env, vm: string, d: Distro, size: int, zvol: string, ramMB: int) returns (calls: seq<Call>, exit: Exit)
    ensures calls == FailFast(MachinePlan(env, Setup(vm, d, size, zvol, MacText(env), ramMB)), env)
    ensures calls != [] && exit == Verdict(env, LastCall(calls))
  {
    ghost var spec := Setup(vm, d, size, zvol, MacText(env), ramMB);
    MachineTrace(env, spec);

    // main.go:80-83
    var mac := RandomMac(env.entropy);
    calls := [ReadRandom];
    if mac.None? {
      return calls, Fatal(MacGeneration);
    }

    // main.go:85-88
    calls := calls + [ConnectLibvirt];
    if !env.libvirtUp {
      return calls, Fatal(LibvirtConnect);
    }

    var s := Setup(vm, d, size, zvol, mac.value, ramMB);
    assert s == spec;
    var segment;
    segment, exit := Deploy(env, s);
    LastOfAppend(calls, segment);
    calls := calls + segment;
  }

  /** Show the plan and wait for an answer, locate the cache, install (main.go:90-218). */
  method Deploy(env: Env, s: Setup) returns (calls: seq<Call>, exit: Exit)
    ensures calls == FailFast(DeployPlan(env, s), env)
    ensures calls != [] && exit == Verdict(env, LastCall(calls))
  {
    DeployTrace(env, s);

    // main.go:90-99
    calls := [Confirm(SummaryOf(s))];

    // main.go:101-105
    calls := calls + [LocateUserCache];
    if env.userCacheDir.None? {
      return calls, Fatal(CacheLocation);
    }
    var cdir := CacheDir(env.userCacheDir.value);
    assert cdir == CacheDir(env.userCacheDir.GetOr(""));

    var segment;
    segment, exit := Install(env, s, cdir);
    LastOfAppend(calls, segment);
    calls := calls + segment;
  }

  /**
   * `main` after flag parsing (main.go:40-218): the same steps in the same order, each
   * failure ending the run on the spot.
   */
  method Provision(f: Flags, env: Env) returns (run: Run)
    ensures run.calls == Trace(f, env)
    ensures run.calls != [] && run.exit == Verdict(env, LastCall(run.calls))
  {
    RunTrace(f, env);

    // main.go:44-50
    var calls: seq<Call> := [];
    var vm := f.name;
    if vm == "" {
      calls := [GenerateName];
      if env.randomName.None? {
        return Run(calls, Fatal(NameGeneration));
      }
      vm := env.randomName.value;
    }
    assert calls == NameCalls(f) && vm == VmName(f, env);

    // main.go:52-55
    calls := calls + [LoadCatalog];
    if env.catalog.None? {
      return Run(calls, Fatal(CatalogLoad));
    }
    var distros := env.catalog.value;

    // main.go:57-77
    var found, d, size := SelectDistro(distros, f.distro, f.zvolSize);
    if !found {
      LookupIsLastMatch(distros, f.distro);
      var known := Names(distros);
      FailFastCons(env, ListKnownDistros(f.distro, known), []);
      calls := calls + [ListKnownDistros(f.distro, known)];
      return Run(calls, UnknownDistro(f.distro, known));
    }

    var segment, exit := Launch(env, vm, d, size, ZvolName(f.zvolPrefix, vm), f.memory);
    LastOfAppend(calls, segment);
    run := Run(calls + segment, exit);
  }
}
