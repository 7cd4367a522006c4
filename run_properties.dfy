/**
 * Properties of whole runs of `main` (main.go:40-219): how a run exits, what it
 * downloads, and what the domain it asks libvirt for is made of. Each is stated about
 * `Trace`, the calls `Provision` makes, against `FullPlan`, the calls of a run in which
 * every step succeeds.
 */
module RunProperties {
  import opened Wrappers
  import opened Catalog
  import opened HardwareAddr
  import opened Paths
  import opened Provisioning

  // ---------------------------------------------------------------------------
  // Calls of interest, picked out of a list of calls in order.
  // ---------------------------------------------------------------------------

  /** The steps that touch the image's cache entry or the network. */
  predicate IsDownloadStep(c: Call) {
    c.CreateFile? || c.HttpGet? || c.SaveBody?
  }

  /** The download steps among `calls`, in order. */
  function DownloadSteps(calls: seq<Call>): seq<Call> {
    if calls == [] then []
    else (if IsDownloadStep(calls[0]) then [calls[0]] else []) + DownloadSteps(calls[1..])
  }

  /** The descriptors handed to `DomainCreateXML` among `calls`, in order. */
  function Creations(calls: seq<Call>): seq<DomainParams> {
    if calls == [] then []
    else (if calls[0].CreateDomain? then [calls[0].params] else []) + Creations(calls[1..])
  }

  lemma DownloadStepsCons(c: Call, rest: seq<Call>)
    ensures DownloadSteps([c] + rest) == (if IsDownloadStep(c) then [c] else []) + DownloadSteps(rest)
  {
    assert ([c] + rest)[1..] == rest;
  }

  lemma CreationsCons(c: Call, rest: seq<Call>)
    ensures Creations([c] + rest) == (if c.CreateDomain? then [c.params] else []) + Creations(rest)
  {
    assert ([c] + rest)[1..] == rest;
  }

  lemma {:induction false} DownloadStepsAppend(a: seq<Call>, b: seq<Call>)
    ensures DownloadSteps(a + b) == DownloadSteps(a) + DownloadSteps(b)
  {
    if a != [] {
      assert a == [a[0]] + a[1..];
      assert a + b == [a[0]] + (a[1..] + b);
      DownloadStepsCons(a[0], a[1..]);
      DownloadStepsCons(a[0], a[1..] + b);
      DownloadStepsAppend(a[1..], b);
      var h := if IsDownloadStep(a[0]) then [a[0]] else [];
      assert h + (DownloadSteps(a[1..]) + DownloadSteps(b)) == (h + DownloadSteps(a[1..])) + DownloadSteps(b);
    } else {
      assert a + b == b;
    }
  }

  lemma {:induction false} CreationsAppend(a: seq<Call>, b: seq<Call>)
    ensures Creations(a + b) == Creations(a) + Creations(b)
  {
    if a != [] {
      assert a == [a[0]] + a[1..];
      assert a + b == [a[0]] + (a[1..] + b);
      CreationsCons(a[0], a[1..]);
      CreationsCons(a[0], a[1..] + b);
      CreationsAppend(a[1..], b);
      var h := if a[0].CreateDomain? then [a[0].params] else [];
      assert h + (Creations(a[1..]) + Creations(b)) == (h + Creations(a[1..])) + Creations(b);
    } else {
      assert a + b == b;
    }
  }

  /** The seed files written are neither download steps nor domain creations. */
  lemma {:induction false} SeedWritesQuiet(dir: string, files: seq<string>)
    ensures DownloadSteps(SeedWrites(dir, files)) == [] && Creations(SeedWrites(dir, files)) == []
  {
    if files != [] {
      var rest := SeedWrites(dir, files[1..]);
      SeedWritesQuiet(dir, files[1..]);
      DownloadStepsCons(WriteSeedFile(Join(dir, files[0])), rest);
      CreationsCons(WriteSeedFile(Join(dir, files[0])), rest);
    }
  }

  /** A run's calls are always a prefix of its plan. */
  lemma {:induction false} FailFastIsPrefix(plan: seq<Call>, env: Env)
    ensures FailFast(plan, env) <= plan
    ensures plan != [] ==> FailFast(plan, env) != []
  {
    if plan != [] && Continues(env, plan[0]) {
      FailFastIsPrefix(plan[1..], env);
      assert plan == [plan[0]] + plan[1..];
    }
  }

  // ---------------------------------------------------------------------------
  // What each phase of the plan downloads and creates.
  // ---------------------------------------------------------------------------

  lemma ImagePlanSteps(env: Env, cdir: string, d: Distro)
    ensures DownloadSteps(ImagePlan(env, cdir, d)) == DownloadPlan(env, d, QcowPath(cdir, d.sha256Sum))
    ensures Creations(ImagePlan(env, cdir, d)) == []
  {
    var qcow := QcowPath(cdir, d.sha256Sum);
    var download := DownloadPlan(env, d, qcow);
    DownloadStepsCons(MakeDir(Join(cdir, "qcow2")), [MakeDir(Join(cdir, "seed"))] + ([StatFile(qcow)] + download));
    DownloadStepsCons(MakeDir(Join(cdir, "seed")), [StatFile(qcow)] + download);
    DownloadStepsCons(StatFile(qcow), download);
    CreationsCons(MakeDir(Join(cdir, "qcow2")), [MakeDir(Join(cdir, "seed"))] + ([StatFile(qcow)] + download));
    CreationsCons(MakeDir(Join(cdir, "seed")), [StatFile(qcow)] + download);
    CreationsCons(StatFile(qcow), download);
    if qcow !in env.cached {
      DownloadStepsCons(CreateFile(qcow), [HttpGet(d.downloadUrl)] + [SaveBody(qcow)]);
      DownloadStepsCons(HttpGet(d.downloadUrl), [SaveBody(qcow)]);
      DownloadStepsCons(SaveBody(qcow), []);
      CreationsCons(CreateFile(qcow), [HttpGet(d.downloadUrl)] + [SaveBody(qcow)]);
      CreationsCons(HttpGet(d.downloadUrl), [SaveBody(qcow)]);
      CreationsCons(SaveBody(qcow), []);
    }
  }

  lemma SeedPlanSteps(env: Env, cdir: string, vm: string, distroName: string)
    ensures DownloadSteps(SeedPlan(env, cdir, vm, distroName)) == []
    ensures Creations(SeedPlan(env, cdir, vm, distroName)) == []
  {
    var dir := env.tempDir.GetOr("");
    var writes := SeedWrites(dir, env.cloudConfig.GetOr([]));
    var iso := [Exec(Genisoimage(IsoPath(cdir, vm, distroName), dir))];
    DownloadStepsCons(RenderCloudConfig(vm), [MakeTempDir] + (writes + iso));
    DownloadStepsCons(MakeTempDir, writes + iso);
    DownloadStepsAppend(writes, iso);
    DownloadStepsCons(iso[0], []);
    CreationsCons(RenderCloudConfig(vm), [MakeTempDir] + (writes + iso));
    CreationsCons(MakeTempDir, writes + iso);
    CreationsAppend(writes, iso);
    CreationsCons(iso[0], []);
    SeedWritesQuiet(dir, env.cloudConfig.GetOr([]));
  }

  lemma StorageAndDomainSteps(size: int, zvol: string, qcow: string, params: DomainParams)
    ensures DownloadSteps(StoragePlan(size, zvol, qcow) + DomainPlan(params)) == []
    ensures Creations(StoragePlan(size, zvol, qcow) + DomainPlan(params)) == [params]
  {
    var create := Exec(ZfsCreate(size, zvol));
    var imageImport := Exec(QemuImgConvert(qcow, zvol));
    DownloadStepsAppend(StoragePlan(size, zvol, qcow), DomainPlan(params));
    CreationsAppend(StoragePlan(size, zvol, qcow), DomainPlan(params));
    DownloadStepsCons(NewUuid, [create] + [imageImport]);
    CreationsCons(NewUuid, [create] + [imageImport]);
    DownloadStepsCons(create, [imageImport]);
    DownloadStepsCons(imageImport, []);
    DownloadStepsCons(RenderDomain(params), [CreateDomain(params)]);
    DownloadStepsCons(CreateDomain(params), []);
    CreationsCons(create, [imageImport]);
    CreationsCons(imageImport, []);
    CreationsCons(RenderDomain(params), [CreateDomain(params)]);
    CreationsCons(CreateDomain(params), []);
  }

  /** After the cache directory: the image's download steps, and exactly one domain creation. */
  lemma AfterCacheDirSteps(env: Env, s: Setup, cdir: string)
    ensures DownloadSteps(AfterCacheDir(env, s, cdir)) == DownloadPlan(env, s.distro, QcowPath(cdir, s.distro.sha256Sum))
    ensures Creations(AfterCacheDir(env, s, cdir)) == [DomainOf(env, s, cdir)]
  {
    var image := ImagePlan(env, cdir, s.distro);
    var seed := SeedPlan(env, cdir, s.vm, s.distro.name);
    var tail := StoragePlan(s.size, s.zvol, QcowPath(cdir, s.distro.sha256Sum)) + DomainPlan(DomainOf(env, s, cdir));
    ImagePlanSteps(env, cdir, s.distro);
    SeedPlanSteps(env, cdir, s.vm, s.distro.name);
    StorageAndDomainSteps(s.size, s.zvol, QcowPath(cdir, s.distro.sha256Sum), DomainOf(env, s, cdir));
    DownloadStepsAppend(image, seed + tail);
    DownloadStepsAppend(seed, tail);
    CreationsAppend(image, seed + tail);
    CreationsAppend(seed, tail);
  }

  /** From the random bytes on: the same steps as after the cache directory. */
  lemma MachinePlanSteps(env: Env, s: Setup)
    ensures
      var cdir := CacheDir(env.userCacheDir.GetOr(""));
      DownloadSteps(MachinePlan(env, s)) == DownloadPlan(env, s.distro, QcowPath(cdir, s.distro.sha256Sum)) &&
      Creations(MachinePlan(env, s)) == [DomainOf(env, s, cdir)]
  {
    var cdir := CacheDir(env.userCacheDir.GetOr(""));
    var after := AfterCacheDir(env, s, cdir);
    AfterCacheDirSteps(env, s, cdir);
    DownloadStepsCons(ReadRandom, [ConnectLibvirt] + DeployPlan(env, s));
    DownloadStepsCons(ConnectLibvirt, DeployPlan(env, s));
    DownloadStepsCons(Confirm(SummaryOf(s)), [LocateUserCache] + after);
    DownloadStepsCons(LocateUserCache, after);
    CreationsCons(ReadRandom, [ConnectLibvirt] + DeployPlan(env, s));
    CreationsCons(ConnectLibvirt, DeployPlan(env, s));
    CreationsCons(Confirm(SummaryOf(s)), [LocateUserCache] + after);
    CreationsCons(LocateUserCache, after);
  }

  /** The setup of a run whose distro was found in the catalog. */
  function SetupFor(f: Flags, env: Env, ds: seq<Distro>, d: Distro): Setup {
    SetupOf(f, env, d, SizeAfter(ds, f.distro, f.zvolSize))
  }

  /** The download steps of a plan in which every step succeeds. */
  function PlannedDownload(f: Flags, env: Env): seq<Call> {
    match env.catalog
    case None => []
    case Some(ds) =>
      match Lookup(ds, f.distro)
      case None => []
      case Some(d) => DownloadPlan(env, d, QcowPath(CacheDir(env.userCacheDir.GetOr("")), d.sha256Sum))
  }

  /** The domain a plan in which every step succeeds creates, if any. */
  function PlannedDomain(f: Flags, env: Env): Option<DomainParams> {
    match env.catalog
    case None => None
    case Some(ds) =>
      match Lookup(ds, f.distro)
      case None => None
      case Some(d) => Some(DomainOf(env, SetupFor(f, env, ds, d), CacheDir(env.userCacheDir.GetOr(""))))
  }

  /** The whole plan downloads at most the chosen image and creates at most one domain. */
  lemma FullPlanSteps(f: Flags, env: Env)
    ensures DownloadSteps(FullPlan(f, env)) == PlannedDownload(f, env)
    ensures Creations(FullPlan(f, env)) == if PlannedDomain(f, env).Some? then [PlannedDomain(f, env).value] else []
  {
    FrontSteps(f, CatalogPlan(f, env));
    match env.catalog
    case None =>
    case Some(ds) =>
      match Lookup(ds, f.distro)
      case None =>
        DownloadStepsCons(ListKnownDistros(f.distro, Names(ds)), []);
        CreationsCons(ListKnownDistros(f.distro, Names(ds)), []);
      case Some(d) =>
        MachinePlanSteps(env, SetupFor(f, env, ds, d));
  }

  /** Naming the VM and loading the catalog download nothing and create nothing. */
  lemma FrontSteps(f: Flags, rest: seq<Call>)
    ensures DownloadSteps(NameCalls(f) + ([LoadCatalog] + rest)) == DownloadSteps(rest)
    ensures Creations(NameCalls(f) + ([LoadCatalog] + rest)) == Creations(rest)
  {
    DownloadStepsAppend(NameCalls(f), [LoadCatalog] + rest);
    DownloadStepsCons(LoadCatalog, rest);
    CreationsAppend(NameCalls(f), [LoadCatalog] + rest);
    CreationsCons(LoadCatalog, rest);
    if f.name == "" {
      DownloadStepsCons(GenerateName, []);
      CreationsCons(GenerateName, []);
    }
  }

  /** The last call of the plan: the catalog load, the listing of known distros, or the domain creation. */
  lemma FullPlanLast(f: Flags, env: Env)
    ensures FullPlan(f, env) != []
    ensures LastCall(FullPlan(f, env)) ==
      match env.catalog
      case None => LoadCatalog
      case Some(ds) =>
        match Lookup(ds, f.distro)
        case None => ListKnownDistros(f.distro, Names(ds))
        case Some(_) => CreateDomain(PlannedDomain(f, env).value)
  {
    var rest := CatalogPlan(f, env);
    LastOfAppend(NameCalls(f), [LoadCatalog] + rest);
    if rest != [] {
      LastOfAppend([LoadCatalog], rest);
    }
    match env.catalog
    case None =>
    case Some(ds) =>
      match Lookup(ds, f.distro)
      case None =>
      case Some(d) =>
        var s := SetupFor(f, env, ds, d);
        var cdir := CacheDir(env.userCacheDir.GetOr(""));
        var params := DomainOf(env, s, cdir);
        var tail := StoragePlan(s.size, s.zvol, QcowPath(cdir, d.sha256Sum)) + DomainPlan(params);
        var seed := SeedPlan(env, cdir, s.vm, d.name);
        var after := AfterCacheDir(env, s, cdir);
        LastOfAppend(StoragePlan(s.size, s.zvol, QcowPath(cdir, d.sha256Sum)), DomainPlan(params));
        LastOfAppend(seed, tail);
        LastOfAppend(ImagePlan(env, cdir, d), seed + tail);
        LastOfAppend([LocateUserCache], after);
        LastOfAppend([Confirm(SummaryOf(s))], [LocateUserCache] + after);
        LastOfAppend([ConnectLibvirt], DeployPlan(env, s));
        LastOfAppend([ReadRandom], [ConnectLibvirt] + DeployPlan(env, s));
  }

  // ---------------------------------------------------------------------------
  // Properties of runs.
  // ---------------------------------------------------------------------------

  /**
   * The run exits with status 0 exactly when it made every call of its plan and each
   * of them succeeded; any other run exits with a non-zero status.
   */
  lemma ExitZeroIffCompleted(f: Flags, env: Env)
    ensures Trace(f, env) != []
    ensures ExitCode(Verdict(env, LastCall(Trace(f, env)))) == 0 <==>
      Trace(f, env) == FullPlan(f, env) && AllContinue(env, FullPlan(f, env))
  {
    FullPlanLast(f, env);
    ExitZeroIffRanAll(env, FullPlan(f, env));
  }

  /** For a plan that ends with the domain creation or with a call that stops the run. */
  lemma ExitZeroIffRanAll(env: Env, plan: seq<Call>)
    requires plan != []
    requires LastCall(plan).CreateDomain? || !Continues(env, LastCall(plan))
    ensures FailFast(plan, env) != []
    ensures ExitCode(Verdict(env, LastCall(FailFast(plan, env)))) == 0 <==>
      FailFast(plan, env) == plan && AllContinue(env, plan)
  {
    FailFastIsPrefix(plan, env);
    var t := FailFast(plan, env);
    if ExitCode(Verdict(env, LastCall(t))) == 0 {
      assert LastCall(t).CreateDomain? && env.created.Success?;
      FailFastRanAll(env, plan);
    }
    if t == plan && AllContinue(env, plan) {
      assert Continues(env, plan[|plan| - 1]);
    }
  }

  /**
   * Nothing is downloaded beyond the plan's download steps, in their order: on a cache
   * hit nothing at all, on a miss at most the creation of the checksum-keyed entry, one
   * GET of the chosen distro's URL and the copy into the entry.
   */
  lemma DownloadsOnlyAsPlanned(f: Flags, env: Env)
    ensures DownloadSteps(Trace(f, env)) <= PlannedDownload(f, env)
  {
    var plan := FullPlan(f, env);
    var t := Trace(f, env);
    FailFastIsPrefix(plan, env);
    assert plan == t + plan[|t|..];
    DownloadStepsAppend(t, plan[|t|..]);
    FullPlanSteps(f, env);
  }

  /** The cache decides the download: a hit fetches nothing, a miss fetches the chosen image once. */
  lemma CacheDecidesDownload(f: Flags, env: Env, ds: seq<Distro>, d: Distro)
    requires env.catalog == Some(ds) && Lookup(ds, f.distro) == Some(d)
    ensures
      var qcow := QcowPath(CacheDir(env.userCacheDir.GetOr("")), d.sha256Sum);
      && (qcow in env.cached ==> DownloadSteps(Trace(f, env)) == [])
      && (qcow !in env.cached ==>
            DownloadSteps(Trace(f, env)) <= [CreateFile(qcow), HttpGet(d.downloadUrl), SaveBody(qcow)])
  {
    DownloadsOnlyAsPlanned(f, env);
  }

  /** A distro missing from the catalog ends the run right after the listing, before any side effect. */
  lemma UnknownDistroStopsEarly(f: Flags, env: Env, ds: seq<Distro>)
    requires f.name != "" || env.randomName.Some?
    requires env.catalog == Some(ds) && !Known(ds, f.distro)
    ensures Trace(f, env) == NameCalls(f) + [LoadCatalog] + [ListKnownDistros(f.distro, Names(ds))]
    ensures Verdict(env, LastCall(Trace(f, env))) == UnknownDistro(f.distro, Names(ds))
  {
    RunTrace(f, env);
    LookupIsLastMatch(ds, f.distro);
    FailFastCons(env, ListKnownDistros(f.distro, Names(ds)), []);
  }

  /**
   * The domain libvirt is asked for is made of the values the rest of the run used: the
   * zvol that `zfs create` makes and `qemu-img` fills, the seed ISO that genisoimage
   * writes, the requested memory in KiB, and the MAC drawn from the random bytes.
   */
  lemma DomainMatchesRun(f: Flags, env: Env, ds: seq<Distro>, d: Distro)
    requires env.catalog == Some(ds) && Lookup(ds, f.distro) == Some(d)
    ensures PlannedDomain(f, env).Some?
    ensures
      var vm := VmName(f, env);
      var zvol := ZvolName(f.zvolPrefix, vm);
      var cdir := CacheDir(env.userCacheDir.GetOr(""));
      var size := SizeAfter(ds, f.distro, f.zvolSize);
      var p := PlannedDomain(f, env).value;
      var plan := FullPlan(f, env);
      && p == DomainParams(vm, env.uuid.GetOr(""), MemoryKiB(f.memory), zvol, IsoPath(cdir, vm, d.name), MacText(env))
      && p.memoryKiB % 1024 == 0 && p.memoryKiB / 1024 == f.memory
      && Exec(ZfsCreate(size, zvol)) in plan
      && ParseSizeArg(Argv(ZfsCreate(size, zvol))[4]) == Some(size)
      && Exec(QemuImgConvert(QcowPath(cdir, d.sha256Sum), zvol)) in plan
      && Exec(Genisoimage(p.seed, env.tempDir.GetOr(""))) in plan
      && CreateDomain(p) in plan
      && (env.entropy.Some? ==> ParseMac48(p.mac) == Some(Normalize(env.entropy.value)))
  {
    var s := SetupFor(f, env, ds, d);
    AfterCacheDirCommands(env, s, CacheDir(env.userCacheDir.GetOr("")));
    AfterCacheDirInPlan(f, env, ds, d);
    MemoryKiBExact(f.memory);
    SizeArgRoundTrip(s.size);
    if env.entropy.Some? {
      FormattedMac(Normalize(env.entropy.value));
    }
  }

  /** The steps after the cache directory build the seed ISO, create and fill the zvol, and create the domain. */
  lemma AfterCacheDirCommands(env: Env, s: Setup, cdir: string)
    ensures
      var after := AfterCacheDir(env, s, cdir);
      var p := DomainOf(env, s, cdir);
      && Exec(Genisoimage(p.seed, env.tempDir.GetOr(""))) in after
      && Exec(ZfsCreate(s.size, s.zvol)) in after
      && Exec(QemuImgConvert(QcowPath(cdir, s.distro.sha256Sum), s.zvol)) in after
      && CreateDomain(p) in after
  {
    var params := DomainOf(env, s, cdir);
    var seed := SeedPlan(env, cdir, s.vm, s.distro.name);
    var dir := env.tempDir.GetOr("");
    assert Exec(Genisoimage(params.seed, dir)) in seed by {
      var writes := SeedWrites(dir, env.cloudConfig.GetOr([]));
      var iso := Exec(Genisoimage(params.seed, dir));
      assert iso in writes + [iso];
    }
  }

  /** Every step after the cache directory is located is a step of the whole plan. */
  lemma AfterCacheDirInPlan(f: Flags, env: Env, ds: seq<Distro>, d: Distro)
    requires env.catalog == Some(ds) && Lookup(ds, f.distro) == Some(d)
    ensures forall c :: c in AfterCacheDir(env, SetupFor(f, env, ds, d), CacheDir(env.userCacheDir.GetOr(""))) ==>
      c in FullPlan(f, env)
  {
    var s := SetupFor(f, env, ds, d);
    var after := AfterCacheDir(env, s, CacheDir(env.userCacheDir.GetOr("")));
    forall c | c in after ensures c in MachinePlan(env, s) {
      assert c in DeployPlan(env, s);
    }
    assert CatalogPlan(f, env) == MachinePlan(env, s);
    forall c | c in MachinePlan(env, s) ensures c in FullPlan(f, env) {
      assert c in [LoadCatalog] + CatalogPlan(f, env);
    }
  }

  /** A list that ends with a domain creation records that creation last. */
  lemma CreationsOfLast(calls: seq<Call>)
    requires calls != [] && LastCall(calls).CreateDomain?
    ensures Creations(calls) == Creations(calls[..|calls| - 1]) + [LastCall(calls).params]
  {
    var init, last := calls[..|calls| - 1], LastCall(calls);
    assert calls == init + [last];
    CreationsAppend(init, [last]);
    assert Creations([last]) == [last.params];
  }

  /**
   * In a plan with at most one domain creation, which when present is the plan's last
   * call, a prefix that ends with a domain creation is the whole plan.
   */
  lemma CreationEndsPlan(t: seq<Call>, plan: seq<Call>)
    requires t <= plan && t != [] && LastCall(t).CreateDomain?
    requires |Creations(plan)| <= 1
    requires plan != [] && (Creations(plan) != [] ==> LastCall(plan).CreateDomain?)
    ensures t == plan && Creations(plan) == [LastCall(t).params]
  {
    CreationsOfLast(t);
    var r := plan[|t|..];
    assert plan == t + r;
    CreationsAppend(t, r);
    if r != [] {
      LastOfAppend(t, r);
      CreationsOfLast(r);
    }
  }

  /**
   * When `DomainCreateXML` fails, every earlier call of the plan was made, including a
   * `zfs create` of the zvol that succeeded, and the printed remedy destroys exactly
   * that zvol.
   */
  lemma DomainFailureRemedy(f: Flags, env: Env)
    ensures Trace(f, env) != []
    ensures
      var e := Verdict(env, LastCall(Trace(f, env)));
      var vm := VmName(f, env);
      var zvol := ZvolName(f.zvolPrefix, vm);
      e.DomainFailed? ==>
        && env.catalog.Some?
        && Trace(f, env) == FullPlan(f, env)
        && Exec(ZfsCreate(SizeAfter(env.catalog.value, f.distro, f.zvolSize), zvol)) in Trace(f, env)
        && env.commandOk(Argv(ZfsCreate(SizeAfter(env.catalog.value, f.distro, f.zvolSize), zvol)))
        && env.created.Failure?
        && e == DomainFailed(vm, env.created.error, Remedy(zvol))
  {
    FullPlanSteps(f, env);
    PlanCreatesLast(f, env);
    DomainFailureRanAll(env, FullPlan(f, env));
    if PlannedDomain(f, env).Some? {
      var ds := env.catalog.value;
      DomainMatchesRun(f, env, ds, Lookup(ds, f.distro).value);
      var e := Verdict(env, LastCall(Trace(f, env)));
      if e.DomainFailed? {
        var create := ZfsCreate(SizeAfter(ds, f.distro, f.zvolSize), ZvolName(f.zvolPrefix, VmName(f, env)));
        CompletedCallsContinue(env, FullPlan(f, env), Exec(create));
        CommandOutcome(env, create);
      }
    }
  }

  /** In a plan that ran to its end, every call but the last let the run go on. */
  lemma {:induction false} CompletedCallsContinue(env: Env, plan: seq<Call>, c: Call)
    requires FailFast(plan, env) == plan && c in plan && c != LastCall(plan)
    ensures Continues(env, c)
  {
    if c != plan[0] {
      assert plan == [plan[0]] + plan[1..];
      assert c in plan[1..] && LastCall(plan[1..]) == LastCall(plan);
      CompletedCallsContinue(env, plan[1..], c);
    }
  }

  /** A call that stops the run is the run's last call. */
  lemma {:induction false} StopIsLast(env: Env, plan: seq<Call>, c: Call)
    requires c in FailFast(plan, env) && !Continues(env, c)
    ensures LastCall(FailFast(plan, env)) == c
  {
    if Continues(env, plan[0]) {
      var rest := FailFast(plan[1..], env);
      assert FailFast(plan, env) == [plan[0]] + rest;
      assert c in rest;
      StopIsLast(env, plan[1..], c);
    }
  }

  /** In a plan whose only domain creation, if any, is its last call, a prefix that stops elsewhere creates nothing. */
  lemma NoCreationBeforeStop(t: seq<Call>, plan: seq<Call>)
    requires t <= plan && t != [] && !LastCall(t).CreateDomain?
    requires |Creations(plan)| <= 1
    requires plan != [] && (Creations(plan) != [] ==> LastCall(plan).CreateDomain?)
    ensures Creations(t) == []
  {
    var r := plan[|t|..];
    assert plan == t + r;
    CreationsAppend(t, r);
    if r != [] {
      LastOfAppend(t, r);
      if LastCall(r).CreateDomain? {
        CreationsOfLast(r);
      }
    }
  }

  /** For a plan whose only domain creation, if any, is its last call: a call that stops the run ends it before any creation. */
  lemma StopEndsRun(env: Env, plan: seq<Call>, c: Call)
    requires plan != [] && |Creations(plan)| <= 1
    requires Creations(plan) != [] ==> LastCall(plan).CreateDomain?
    requires c in FailFast(plan, env) && !Continues(env, c) && !c.CreateDomain?
    ensures LastCall(FailFast(plan, env)) == c && Creations(FailFast(plan, env)) == []
  {
    StopIsLast(env, plan, c);
    FailFastIsPrefix(plan, env);
    NoCreationBeforeStop(FailFast(plan, env), plan);
  }

  /**
   * When `zfs create` fails, the run ends right there with the fatal volume-creation
   * exit and status 1, and no domain was asked for.
   */
  lemma VolumeFailureEndsRun(f: Flags, env: Env, size: int, zvol: string)
    requires Exec(ZfsCreate(size, zvol)) in Trace(f, env)
    requires !env.commandOk(Argv(ZfsCreate(size, zvol)))
    ensures LastCall(Trace(f, env)) == Exec(ZfsCreate(size, zvol))
    ensures Verdict(env, LastCall(Trace(f, env))) == Fatal(VolumeCreate)
    ensures ExitCode(Verdict(env, LastCall(Trace(f, env)))) == 1
    ensures Creations(Trace(f, env)) == []
  {
    PlanCreatesLast(f, env);
    CommandOutcome(env, ZfsCreate(size, zvol));
    StopEndsRun(env, FullPlan(f, env), Exec(ZfsCreate(size, zvol)));
  }

  /**
   * When any external command (genisoimage, `zfs create`, `qemu-img convert`) fails,
   * the run ends right there with the fatal exit of that command's stage and status 1,
   * and no domain was asked for.
   */
  lemma CommandFailureEndsRun(f: Flags, env: Env, cmd: Command)
    requires Exec(cmd) in Trace(f, env)
    requires !env.commandOk(Argv(cmd))
    ensures LastCall(Trace(f, env)) == Exec(cmd)
    ensures Verdict(env, LastCall(Trace(f, env))) == Fatal(CommandStage(cmd))
    ensures ExitCode(Verdict(env, LastCall(Trace(f, env)))) == 1
    ensures Creations(Trace(f, env)) == []
  {
    PlanCreatesLast(f, env);
    CommandOutcome(env, cmd);
    StopEndsRun(env, FullPlan(f, env), Exec(cmd));
  }

  /** The plan creates at most one domain, as its last call, and does not end with drawing the uuid. */
  lemma PlanCreatesLast(f: Flags, env: Env)
    ensures FullPlan(f, env) != [] && |Creations(FullPlan(f, env))| <= 1
    ensures Creations(FullPlan(f, env)) != [] ==> LastCall(FullPlan(f, env)).CreateDomain?
    ensures !LastCall(FullPlan(f, env)).NewUuid?
  {
    FullPlanSteps(f, env);
    FullPlanLast(f, env);
  }

  /**
   * The run exits with status 2 exactly when drawing the domain's uuid failed, and it
   * then asked for no domain; every other failure exits with status 1.
   */
  lemma UuidFailurePanics(f: Flags, env: Env)
    ensures Trace(f, env) != []
    ensures ExitCode(Verdict(env, LastCall(Trace(f, env)))) == 2 <==>
      LastCall(Trace(f, env)) == NewUuid && env.uuid.None?
    ensures ExitCode(Verdict(env, LastCall(Trace(f, env)))) == 2 ==> Creations(Trace(f, env)) == []
  {
    PlanCreatesLast(f, env);
    PanicOnlyForUuid(env, FullPlan(f, env));
  }

  /** For a plan that does not end with drawing the uuid and whose only domain creation, if any, is its last call. */
  lemma PanicOnlyForUuid(env: Env, plan: seq<Call>)
    requires plan != [] && !LastCall(plan).NewUuid?
    requires |Creations(plan)| <= 1 && (Creations(plan) != [] ==> LastCall(plan).CreateDomain?)
    ensures FailFast(plan, env) != []
    ensures ExitCode(Verdict(env, LastCall(FailFast(plan, env)))) == 2 <==>
      LastCall(FailFast(plan, env)) == NewUuid && env.uuid.None?
    ensures ExitCode(Verdict(env, LastCall(FailFast(plan, env)))) == 2 ==> Creations(FailFast(plan, env)) == []
  {
    FailFastIsPrefix(plan, env);
    var t := FailFast(plan, env);
    if LastCall(t) == NewUuid && env.uuid.Some? {
      FailFastRanAll(env, plan);
    }
    if LastCall(t) == NewUuid {
      NoCreationBeforeStop(t, plan);
    }
  }

  /** For a plan whose only domain creation, if any, is its last call. */
  lemma DomainFailureRanAll(env: Env, plan: seq<Call>)
    requires plan != [] && |Creations(plan)| <= 1
    requires Creations(plan) != [] ==> LastCall(plan).CreateDomain?
    ensures FailFast(plan, env) != []
    ensures
      var last := LastCall(FailFast(plan, env));
      Verdict(env, last).DomainFailed? ==>
        FailFast(plan, env) == plan && last.CreateDomain? && Creations(plan) == [last.params] &&
        env.created.Failure? && Verdict(env, last) == DomainFailed(last.params.name, env.created.error, Remedy(last.params.zvol))
  {
    FailFastIsPrefix(plan, env);
    var t := FailFast(plan, env);
    if Verdict(env, LastCall(t)).DomainFailed? {
      assert LastCall(t).CreateDomain? && env.created.Failure?;
      CreationEndsPlan(t, plan);
    }
  }

  /** A refused download stops the run inside the image phase, after the cache entry was created. */
  lemma RefusedInImagePhase(env: Env, s: Setup, cdir: string)
    requires QcowPath(cdir, s.distro.sha256Sum) !in env.cached && env.createOk && !Fetched(env)
    ensures
      var qcow := QcowPath(cdir, s.distro.sha256Sum);
      FailFast(AfterCacheDir(env, s, cdir), env) ==
        [MakeDir(Join(cdir, "qcow2")), MakeDir(Join(cdir, "seed")), StatFile(qcow)]
        + ([CreateFile(qcow)] + [HttpGet(s.distro.downloadUrl)])
    ensures FailFast(AfterCacheDir(env, s, cdir), env) != []
    ensures LastCall(FailFast(AfterCacheDir(env, s, cdir), env)) == HttpGet(s.distro.downloadUrl)
  {
    var image := ImagePlan(env, cdir, s.distro);
    var qcow := QcowPath(cdir, s.distro.sha256Sum);
    ImageTrace(env, cdir, s.distro);
    DownloadTrace(env, s.distro, qcow);
    var front := [MakeDir(Join(cdir, "qcow2")), MakeDir(Join(cdir, "seed")), StatFile(qcow)];
    LastOfAppend(front, [CreateFile(qcow)] + [HttpGet(s.distro.downloadUrl)]);
    FailFastStopped(env, image, AfterCacheDir(env, s, cdir)[|image|..]);
    assert AfterCacheDir(env, s, cdir) == image + AfterCacheDir(env, s, cdir)[|image|..];
  }

  /**
   * A miss whose GET is answered with anything but 200 ends the run with the server's
   * status line. The empty cache entry created before the GET stays behind, and nothing
   * is copied into it.
   */
  lemma DownloadRefusedLeavesEntry(f: Flags, env: Env, ds: seq<Distro>, d: Distro, userCache: string)
    requires f.name != "" || env.randomName.Some?
    requires env.catalog == Some(ds) && Lookup(ds, f.distro) == Some(d)
    requires env.entropy.Some? && env.libvirtUp && env.userCacheDir == Some(userCache)
    requires QcowPath(CacheDir(userCache), d.sha256Sum) !in env.cached && env.createOk
    requires env.http.Reply? && env.http.code != 200
    ensures
      var cdir := CacheDir(userCache);
      var qcow := QcowPath(cdir, d.sha256Sum);
      Trace(f, env) ==
        NameCalls(f) + [LoadCatalog]
        + ([ReadRandom] + [ConnectLibvirt]
           + ([Confirm(SummaryOf(SetupFor(f, env, ds, d)))] + [LocateUserCache]
              + ([MakeDir(Join(cdir, "qcow2")), MakeDir(Join(cdir, "seed")), StatFile(qcow)]
                 + ([CreateFile(qcow)] + [HttpGet(d.downloadUrl)]))))
    ensures Trace(f, env) != [] && Verdict(env, LastCall(Trace(f, env))) == DownloadRefused(d.downloadUrl, env.http.status)
  {
    var s := SetupFor(f, env, ds, d);
    RunTrace(f, env);
    assert CatalogPlan(f, env) == MachinePlan(env, s);
    MachineRefused(env, s, userCache);
    LastOfAppend(NameCalls(f) + [LoadCatalog], FailFast(MachinePlan(env, s), env));
  }

  /** From the random bytes on, a refused download is the last call. */
  lemma MachineRefused(env: Env, s: Setup, userCache: string)
    requires env.entropy.Some? && env.libvirtUp && env.userCacheDir == Some(userCache)
    requires QcowPath(CacheDir(userCache), s.distro.sha256Sum) !in env.cached && env.createOk && !Fetched(env)
    ensures
      var cdir := CacheDir(userCache);
      var qcow := QcowPath(cdir, s.distro.sha256Sum);
      FailFast(MachinePlan(env, s), env) ==
        [ReadRandom] + [ConnectLibvirt]
        + ([Confirm(SummaryOf(s))] + [LocateUserCache]
           + ([MakeDir(Join(cdir, "qcow2")), MakeDir(Join(cdir, "seed")), StatFile(qcow)]
              + ([CreateFile(qcow)] + [HttpGet(s.distro.downloadUrl)])))
    ensures FailFast(MachinePlan(env, s), env) != []
    ensures LastCall(FailFast(MachinePlan(env, s), env)) == HttpGet(s.distro.downloadUrl)
  {
    MachineTrace(env, s);
    DeployTrace(env, s);
    RefusedInImagePhase(env, s, CacheDir(userCache));
    LastOfAppend([Confirm(SummaryOf(s))] + [LocateUserCache], FailFast(AfterCacheDir(env, s, CacheDir(userCache)), env));
    LastOfAppend([ReadRandom] + [ConnectLibvirt], FailFast(DeployPlan(env, s), env));
  }

  // ---------------------------------------------------------------------------
  // What a run leaves in the image cache for the next one.
  // ---------------------------------------------------------------------------

  /** The files in the cache after a run: those found before, plus every entry `os.Create` made. */
  function CacheAfter(env: Env, calls: seq<Call>): set<string> {
    env.cached + set c | c in calls && c.CreateFile? && env.createOk :: c.path
  }

  /** Running a longer plan makes at least the calls of the shorter one. */
  lemma {:induction false} FailFastMonotone(env: Env, a: seq<Call>, b: seq<Call>)
    ensures FailFast(a, env) <= FailFast(a + b, env)
  {
    if a != [] {
      assert (a + b)[0] == a[0] && (a + b)[1..] == a[1..] + b;
      FailFastMonotone(env, a[1..], b);
    }
  }

  /** On a miss the image phase always creates the entry, whatever follows. */
  lemma EntryCreatedInImagePhase(env: Env, s: Setup, cdir: string)
    requires QcowPath(cdir, s.distro.sha256Sum) !in env.cached
    ensures CreateFile(QcowPath(cdir, s.distro.sha256Sum)) in FailFast(AfterCacheDir(env, s, cdir), env)
  {
    var image := ImagePlan(env, cdir, s.distro);
    var after := AfterCacheDir(env, s, cdir);
    ImageTrace(env, cdir, s.distro);
    DownloadTrace(env, s.distro, QcowPath(cdir, s.distro.sha256Sum));
    var qcow := QcowPath(cdir, s.distro.sha256Sum);
    var front := [MakeDir(Join(cdir, "qcow2")), MakeDir(Join(cdir, "seed")), StatFile(qcow)];
    var download := FailFast(DownloadPlan(env, s.distro, qcow), env);
    assert download[0] == CreateFile(qcow);
    assert FailFast(image, env)[3] == CreateFile(qcow) by {
      assert FailFast(image, env) == front + download;
    }
    assert after == image + after[|image|..];
    FailFastMonotone(env, image, after[|image|..]);
    assert FailFast(after, env)[3] == CreateFile(qcow);
  }

  /** From the random bytes on, a miss reaches the creation of the entry. */
  lemma MachineReachesEntry(env: Env, s: Setup, userCache: string)
    requires env.entropy.Some? && env.libvirtUp && env.userCacheDir == Some(userCache)
    requires QcowPath(CacheDir(userCache), s.distro.sha256Sum) !in env.cached
    ensures CreateFile(QcowPath(CacheDir(userCache), s.distro.sha256Sum)) in FailFast(MachinePlan(env, s), env)
  {
    MachineTrace(env, s);
    DeployTrace(env, s);
    EntryCreatedInImagePhase(env, s, CacheDir(userCache));
  }

  /**
   * A run that gets as far as the image cache leaves the checksum-keyed entry behind
   * whenever `os.Create` succeeds: a transport error, a refused GET and a failed copy
   * all stop the run after the entry exists.
   */
  lemma ReachesCacheEntry(f: Flags, env: Env, ds: seq<Distro>, d: Distro, userCache: string)
    requires f.name != "" || env.randomName.Some?
    requires env.catalog == Some(ds) && Lookup(ds, f.distro) == Some(d)
    requires env.entropy.Some? && env.libvirtUp && env.userCacheDir == Some(userCache)
    ensures
      var qcow := QcowPath(CacheDir(userCache), d.sha256Sum);
      && (qcow !in env.cached ==> CreateFile(qcow) in Trace(f, env))
      && (qcow in CacheAfter(env, Trace(f, env)) <==> qcow in env.cached || env.createOk)
  {
    var qcow := QcowPath(CacheDir(userCache), d.sha256Sum);
    var s := SetupFor(f, env, ds, d);
    RunTrace(f, env);
    assert CatalogPlan(f, env) == MachinePlan(env, s);
    if qcow !in env.cached {
      MachineReachesEntry(env, s, userCache);
    }
  }

  /**
   * Cross-run idempotence of the cache: after a run whose `os.Create` of the entry
   * succeeded, a later run on the same catalog, cache directory and distro downloads
   * nothing, however the first run ended.
   */
  lemma SecondRunDownloadsNothing(f: Flags, env: Env, f2: Flags, env2: Env, ds: seq<Distro>, d: Distro, userCache: string)
    requires f.name != "" || env.randomName.Some?
    requires env.catalog == Some(ds) && Lookup(ds, f.distro) == Some(d)
    requires env.entropy.Some? && env.libvirtUp && env.userCacheDir == Some(userCache) && env.createOk
    requires env2.catalog == Some(ds) && f2.distro == f.distro && env2.userCacheDir == Some(userCache)
    requires env2.cached == CacheAfter(env, Trace(f, env))
    ensures DownloadSteps(Trace(f2, env2)) == []
  {
    ReachesCacheEntry(f, env, ds, d, userCache);
    CacheDecidesDownload(f2, env2, ds, d);
  }
}
