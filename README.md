# mkvm provisioning, modelled in Dafny

`main.go` of waifud (the `mkvm` command) provisions one libvirt virtual machine on a
ZFS host. It picks a distribution from an embedded catalog and raises the requested
zvol size to that distribution's minimum. It draws a random locally administered MAC
address and connects to libvirt. After showing the plan and waiting for Enter, it
downloads the distribution's qcow2 image into a cache entry keyed by its checksum
(unless that entry already exists) and builds a cloud-init seed ISO with `genisoimage`.
It then creates a zvol with `sudo zfs create -V <n>G`, writes the image onto
`/dev/zvol/<zvol>` with `qemu-img convert`, and asks libvirt to create the domain.
A failure reported through `log.Fatal` or `os.Exit(1)` ends the run with status 1.
When only the domain creation fails, the command that destroys the zvol is printed.
A failing random source makes `uuid.New` panic just before the zvol is created, and
the Go runtime then exits with status 2.

The project has these modules:

- `Wrappers` holds `Option` and `Result`.
- `Catalog` holds the catalog records. It models the scan that chooses the distro and
  clamps the size, both as a specification (`Lookup`, `SizeAfter`) and as the loop itself
  (`SelectDistro`).
- `HardwareAddr` models `randomMac`: the six-byte buffer, the fix-up of its first byte,
  and the colon-separated lower-case hex text with its inverse.
- `Paths` holds every name and path the run derives: the zvol, the cache directory,
  the cache entry, the seed ISO, the zvol device, the RAM in KiB, the `"<n>G"` size
  argument and the remedial `zfs destroy` line.
- `Provisioning` models the run as a fail-fast sequence of external calls. Each
  outside effect is an oracle outcome in `Env`. `FullPlan` lists the calls of a run in
  which every call succeeds. `FailFast` cuts the plan just after the first call that
  stops the run. `Verdict` gives the exit that call leads to. The methods `Provision`,
  `Launch`, `Deploy`, `Install`, `EnsureImage`, `BuildSeed`, `FillSeed`, `WriteSeed`,
  `CreateVolume` and `CreateVm` follow `main` step by step. Each is proved to make
  exactly the calls of its part of the plan, cut by `FailFast`, and to exit as `Verdict`
  says.
- `RunProperties` states properties of whole runs:
  - the exit status is 0 exactly when every planned call was made and succeeded;
  - nothing is downloaded beyond the chosen image, and nothing at all on a cache hit;
  - an unknown distro stops the run before any side effect;
  - the domain descriptor uses the zvol, the seed ISO, the memory and the MAC the run
    produced;
  - a failed domain creation names the zvol to destroy;
  - a failed `zfs create` ends the run there, and no domain is asked for;
  - among the modelled failures, only the uuid panic exits with status 2;
  - a refused download leaves the cache entry behind;
  - once `os.Create` has made the cache entry, the next run downloads nothing, however
    the first run ended.

Two behaviours of the code are worth noting:
- The cache entry is created *before* the GET (main.go:112-116). A transport error, a
  refused GET or a failed copy (main.go:117-127) therefore leaves an empty or partial
  file at the cache key, and the next run treats that file as a hit.
  `RunProperties.ReachesCacheEntry` states that the entry is left behind whenever
  `os.Create` succeeds. `RunProperties.SecondRunDownloadsNothing` states that a second
  run with that cache makes no download step. `RunProperties.CacheAfter` gives the cache
  after a run.
- The `zfs destroy` remedy is printed only when `DomainCreateXML` fails
  (main.go:209-216). A failed `qemu-img convert` or a failed rendering of `base.xml` also
  leaves the zvol behind, but prints no remedy (`Fatal(ImageImport)`, `Fatal(DomainRender)`).

## Model

| member | source | states |
|---|---|---|
| Catalog.ClampSize | main.go:63-68 | a request of 0 becomes the minimum; the result is never below the minimum and is either the request or the minimum; with a positive minimum it is max(request, minimum) |
| Catalog.SelectDistro | main.go:57-70 | the loop finds the distro iff some entry has exactly that name; it keeps the last match (`Lookup`) and leaves the zero `Distro` when none matches; its size is `SizeAfter`, i.e. the clamp applied at every match in order |
| Catalog.ListingIsComplete | main.go:71-76 | the listing of known distros contains the requested name iff some entry has exactly that name, i.e. iff the scan finds it |
| Catalog.LookupIsLastMatch | main.go:59-62 | the chosen record is absent iff no name matches exactly, and otherwise it is a matching entry with no match after it |
| Catalog.SizeIsMaximum | main.go:63-68 | with positive minimums the chosen size is at least the request and at least every matching entry's minimum, and equals the request or one of those minimums |
| Catalog.SizeOfSingleMatch | main.go:59-68 | with exactly one matching entry the size is that entry's clamp of the request and that entry is chosen |
| Catalog.NoMatchKeepsRequest | main.go:57-70 | with no matching entry the request is unchanged and nothing is chosen |
| Catalog.SizeAsWrittenPre122 | main.go:63-68 | with one range variable shared by every iteration, the size read after the loop is the request or the LAST catalog entry's minimum |
| Catalog.AliasedSizeReadsLastEntry | main.go:63-68 | for a two-entry catalog, asking for the first entry with size 0 reads 20 (the last entry's minimum) as written, where the intended size is 4 |
| HardwareAddr.FixUpBits | main.go:228 | `(b \| 2) & 0xfe` sets the locally administered bit, clears the multicast bit and keeps the six other bits |
| HardwareAddr.FixUpFixedPoints | main.go:228 | the fix-up leaves a byte unchanged iff it is already local unicast, so applying it twice is applying it once |
| HardwareAddr.NormalizeKeeps | main.go:222-228 | the first byte becomes local unicast with its upper six bits kept; bytes 1-5 are unchanged; normalising is idempotent |
| HardwareAddr.HexDigitValue | main.go:230 | each nibble has a lower-case hex digit that reads back as the nibble |
| HardwareAddr.HexValue | main.go:230 | a character has a value iff it is a lower-case hex digit, and the value is below 16 |
| HardwareAddr.FormatByteParses | main.go:230 | a byte is written as two lower-case hex digits that read back as the byte |
| HardwareAddr.FormatShape | main.go:230 | n bytes give 3n-1 characters: ':' at every third position, lower-case hex digits elsewhere |
| HardwareAddr.ParseFormat | main.go:230 | parsing the formatted text gives back the bytes |
| HardwareAddr.FormattedMac | main.go:230 | a MAC-48 address is 17 characters long and parses back to exactly its six bytes |
| HardwareAddr.RandomMac | main.go:221-231 | a failing random source gives an error and no address; otherwise the address is the text of the six bytes with the fixed-up first byte |
| Paths.JoinShape | main.go:78 | joining drops an empty element; otherwise the result is the directory without its trailing '/', one '/', and the element |
| Paths.JoinInjective | main.go:78 | under a fixed non-empty directory, different single path elements (no '/', not "." or "..") give different paths |
| Paths.JoinUnder | main.go:105-108 | joining under a non-empty directory gives `<dir without trailing slash>/<elem>` |
| Paths.DevicePathLayout | main.go:185 | the device of a named zvol is `/dev/zvol/<zvol>` |
| Paths.CacheKeyInjective | main.go:108 | for checksums that are single path elements, two cache entries coincide iff the checksums do |
| Paths.CacheKeyLayout | main.go:105-158 | under a cache directory without a trailing '/' the entry is `<cdir>/qcow2/<checksum>` and the seed ISO `<cdir>/seed/<vm>-<distro>.iso` |
| Paths.MemoryKiBExact | main.go:175 | the descriptor's memory is a whole number of MiB, exactly the requested megabytes |
| Paths.RemedyNamesZvol | main.go:214 | the remedy is `zfs destroy ` followed by exactly the zvol; different zvols give different remedies |
| Paths.ParseNatString | main.go:180 | the decimal digits of a natural number read back as the number |
| Paths.ParseIntString | main.go:180 | `%d` of any integer, negative ones included, reads back as the integer |
| Paths.SizeArgRoundTrip | main.go:180 | the `-V` argument `"<n>G"` carries exactly n gigabytes |
| Provisioning.Provision | main.go:40-218 | `main` makes exactly the calls of the plan up to the first that stops the run (`Trace`), and exits as that last call determines |
| Provisioning.Launch | main.go:80-88 | drawing the MAC and connecting to libvirt, then deploying, makes the calls of `MachinePlan` cut at the first failure and exits accordingly |
| Provisioning.Deploy | main.go:90-105 | the prompt and the cache directory lookup, then the installation, make the calls of `DeployPlan` cut at the first failure |
| Provisioning.Install | main.go:106-218 | image cache, seed, storage and domain phases, in order, make the calls of `AfterCacheDir` cut at the first failure and exit as the last call determines |
| Provisioning.EnsureImage | main.go:106-132 | returns the entry `<cdir>/qcow2/<checksum>` and makes the image-cache phase's calls up to the first failure, with a refused GET exiting with the server's status |
| Provisioning.WriteSeed | main.go:147-156 | writes the archive's files in order and stops at the first failed write, reporting it |
| Provisioning.FillSeed | main.go:147-173 | the seed files, then genisoimage, cut at the first failure |
| Provisioning.BuildSeed | main.go:134-173 | returns the seed ISO path and makes the seed phase's calls (render, temporary directory, writes, genisoimage) up to the first failure |
| Provisioning.CreateVolume | main.go:176-188 | draws the uuid, then `zfs create`, then `qemu-img convert`, cut at the first failure; a failed uuid draw ends the run with a panic; when it goes on, the returned id is the drawn uuid |
| Provisioning.DefaultFlags | main.go:32-38 | with every flag at its default and one alpine-edge entry, the run draws a random name, picks that entry at its minimum size, names the zvol `rpool/mkvm-test/<vm>` and asks for 524288 KiB |
| Provisioning.CreateVm | main.go:190-218 | renders base.xml and creates the domain; the exit is the domain's name, or libvirt's error with the remedy naming the zvol |
| Provisioning.SeedWritesShape | main.go:147-148 | the seed phase writes exactly one file per archive entry, in archive order, each under the temporary directory |
| Provisioning.SeedWriteStep | main.go:147-155 | a write is made; the later writes follow only if it succeeded |
| Provisioning.SeedWriteFails | main.go:148-155 | a failed write ends the seed phase with that write and a fatal exit |
| Provisioning.SeedWriteGoesOn | main.go:147-156 | a successful write moves the phase on to the next file |
| Provisioning.FailFastAfter | main.go:40-218 | calls that all succeed are made in full and the rest of the plan follows them |
| Provisioning.FailFastStopped | main.go:40-218 | once a phase stops the run, nothing after that phase is made |
| Provisioning.FailFastRanAll | main.go:40-218 | a run whose last call succeeded made every planned call, and each succeeded |
| Provisioning.EmitPhase | main.go:40-218 | a phase that finished lets the next phase follow; a phase that stopped ends the run |
| Provisioning.FrontTrace | main.go:44-55 | the name (only when none was given) and the catalog come first; either failing ends the run |
| Provisioning.RunTrace | main.go:44-77 | the run's calls are the name and catalog calls followed by the catalog-dependent part, cut as above |
| Provisioning.MachineTrace | main.go:80-88 | the random read and the libvirt connection each stop the run when they fail |
| Provisioning.DeployTrace | main.go:90-105 | any answer at the prompt proceeds; without a user cache directory nothing is installed |
| Provisioning.ConfirmTrace | main.go:97-104 | the confirmation always goes on; locating the cache stops the run when there is none |
| Provisioning.DownloadTrace | main.go:109-132 | a hit makes no call; a miss creates the entry, GETs the catalog URL once, then copies the body, stopping at the first failure |
| Provisioning.ImageTrace | main.go:106-110 | both cache directories are made and the entry looked up before any download |
| Provisioning.SeedTrace | main.go:134-145 | cloud-config is rendered and the temporary directory made before any file is written |
| Provisioning.StorageTrace | main.go:176-188 | no zvol is created without a uuid, and the image is imported only onto a zvol that was created |
| Provisioning.DomainTrace | main.go:190-209 | libvirt is asked to create the domain only when base.xml rendered |
| RunProperties.FailFastIsPrefix | main.go:40-218 | a run's calls are a non-empty prefix of its plan |
| RunProperties.SeedWritesQuiet | main.go:147-156 | writing seed files downloads nothing and creates no domain |
| RunProperties.ImagePlanSteps | main.go:106-132 | the image phase's download steps are exactly the download plan, and it creates no domain |
| RunProperties.SeedPlanSteps | main.go:134-173 | the seed phase downloads nothing and creates no domain |
| RunProperties.StorageAndDomainSteps | main.go:176-209 | storage and domain download nothing and create exactly one domain |
| RunProperties.AfterCacheDirSteps | main.go:106-209 | after the cache directory the plan downloads the image's download plan and creates exactly one domain |
| RunProperties.MachinePlanSteps | main.go:80-209 | the same from the random read on |
| RunProperties.FrontSteps | main.go:44-55 | naming the VM and loading the catalog download nothing and create nothing |
| RunProperties.FullPlanSteps | main.go:40-209 | the whole plan downloads at most the chosen image and creates at most one domain, the planned one |
| RunProperties.FullPlanLast | main.go:52-77 | the plan ends with the catalog load, the listing of known distros, or the domain creation |
| RunProperties.ExitZeroIffCompleted | main.go:40-219 | the run exits with status 0 iff it made every planned call and every one succeeded |
| RunProperties.ExitZeroIffRanAll | main.go:209-218 | for a plan ending with the domain creation or a stopping call, status 0 iff the whole plan ran and succeeded |
| RunProperties.DownloadsOnlyAsPlanned | main.go:109-132 | the run's download steps are a prefix of the planned ones, in order |
| RunProperties.CacheDecidesDownload | main.go:108-132 | a cache hit downloads nothing; a miss makes at most the entry creation, one GET of the chosen URL and the copy |
| RunProperties.UnknownDistroStopsEarly | main.go:71-77 | an unknown distro ends the run right after the catalog load with the listing of every known name, before any side effect |
| RunProperties.DomainMatchesRun | main.go:175-204 | the domain descriptor carries the VM name, the uuid, the requested memory in KiB, the zvol that `zfs create` makes with the clamped size and `qemu-img` fills, the ISO genisoimage writes, and the MAC drawn from the random bytes; all those commands are in the plan |
| RunProperties.AfterCacheDirCommands | main.go:158-209 | after the cache directory the plan runs genisoimage on the seed ISO, creates and fills the zvol, and creates the domain |
| RunProperties.AfterCacheDirInPlan | main.go:105-218 | every call after the cache directory is located belongs to the whole plan |
| RunProperties.CreationEndsPlan | main.go:209-218 | a prefix of the plan that ends with the plan's only creation is the whole plan |
| RunProperties.DomainFailureRemedy | main.go:209-216 | a failed domain creation happens only after the whole plan ran, with a `zfs create` of the zvol at the clamped size that succeeded; the exit names the VM, carries libvirt's error and the remedy `zfs destroy <that zvol>` |
| RunProperties.CompletedCallsContinue | main.go:40-218 | in a run that made its whole plan, every call but the last succeeded |
| RunProperties.StopIsLast | main.go:40-218 | a call that fails is the last call of the run |
| RunProperties.NoCreationBeforeStop | main.go:209-218 | a prefix of the plan that stops at a call other than the domain creation creates no domain |
| RunProperties.StopEndsRun | main.go:40-218 | a failing call other than the creation ends the run, before any domain creation |
| RunProperties.PlanCreatesLast | main.go:40-209 | the plan creates at most one domain, as its last call, and never ends with the uuid draw |
| RunProperties.CommandFailureEndsRun | main.go:160-188 | a failed genisoimage, `zfs create` or `qemu-img convert` is the run's last call; the run exits with the fatal exit of that command's stage, status 1, and no domain was asked for |
| RunProperties.VolumeFailureEndsRun | main.go:179-183 | a failed `zfs create` is the run's last call; the run exits with the fatal volume-creation exit, status 1, and no domain was asked for |
| RunProperties.UuidFailurePanics | main.go:176 | the run exits with status 2 iff its last call is the uuid draw and the random source failed; such a run asked for no domain |
| RunProperties.PanicOnlyForUuid | main.go:176 | the same for any plan not ending with the uuid draw whose only creation is its last call |
| RunProperties.DomainFailureRanAll | main.go:209-216 | for a plan whose only creation is its last call, a domain failure means the whole plan ran |
| RunProperties.RefusedInImagePhase | main.go:109-123 | a refused GET stops the run in the image phase, after the cache entry was created |
| RunProperties.MachineRefused | main.go:80-123 | from the random read on, a refused download ends the calls with the entry creation and the GET |
| RunProperties.DownloadRefusedLeavesEntry | main.go:111-123 | a miss whose GET is answered with anything but 200 ends the run with the server's status line, after creating the cache entry and without copying into it |
| RunProperties.FailFastMonotone | main.go:40-218 | running a longer plan makes at least the calls of a shorter one |
| RunProperties.EntryCreatedInImagePhase | main.go:109-113 | on a miss the image phase creates the cache entry, whatever follows |
| RunProperties.MachineReachesEntry | main.go:80-113 | from the random read on, a miss reaches the creation of the cache entry |
| RunProperties.ReachesCacheEntry | main.go:108-127 | a run that reaches the image cache on a miss creates the entry; the entry is in the cache afterwards iff it was there before or `os.Create` succeeded, whatever the GET and the copy did |
| RunProperties.SecondRunDownloadsNothing | main.go:108-132 | after a run whose `os.Create` of the entry succeeded, a run with the resulting cache, the same catalog, cache directory and distro makes no download step |

## Left out

- I/O is not performed. The name list, the Dhall catalog decoding, crypto/rand, the libvirt socket (dial, polkit, connect), `os.UserCacheDir`, `os.Stat`, `os.Create`, `http.Get`, `io.Copy`, template rendering, `os.MkdirTemp`, file writes, the `run` subprocesses and `DomainCreateXML` are oracle outcomes in `Env`.
- Log lines and printed text are not modelled, except the listing of known distros, the exit codes and the remedy text.
- `rand.Seed` and `getName`'s random index are not modelled. The generated name is an oracle value, `randomName`.
- The uuid is an oracle outcome, `uuid`: a value, or `None` when the random source fails and `uuid.New` panics.
- `getName`'s `rand.Intn(len(names))` (main.go:233-246) panics, with status 2, when the embedded name list is empty. The list is fixed at build time and is not part of this model, so the model treats the name draw as either a name or an error.
- The answer read from stdin at the prompt is ignored by the source, and it is not modelled.
- Paths.Join: implements `filepath.Join` only for two elements. It drops empty elements and puts one '/' between the parts. It does not clean "..", "." or repeated slashes.
- Paths.MemoryKiB: uses unbounded integers, so it does not model the overflow of Go's `int` in `*memory * 1024` for very large flags.
- The text of the txtar archive and its contents are not modelled. The seed phase sees only the archive's file names, in order, and whether each write succeeded.
- `template.Must` (main.go:134) panics, with status 2, on unparsable embedded templates. The templates are fixed at build time and are not part of this model, so this panic is not modelled.
- Paths.JoinInjective, Paths.CacheKeyInjective: promise injectivity only for single path elements (no '/', not "." or ".."). `filepath.Join` cleans its result, so "a", "a/" and "./a" give the same path, and the simplified `Join` does not model that cleaning. Catalog checksums are hex digests, which are single path elements.
- Which libvirt connection step failed (dial, polkit or connect) is not distinguished.
- The error text of each fatal exit is not modelled. It is reduced to the stage that failed.
- The checksum is used only as a cache key. The source never verifies the downloaded image against it, and the model does not either.
- Go's `net.HardwareAddr.String` is library code. It is modelled as `HardwareAddr.Format`, the colon-separated lower-case hex pairs it returns.
- Closing the downloaded file and the response body (main.go:130-131) has no observable effect in the model.

## Findings

| source | as written | input that shows it | evidently intended | confidence | as-written member | corrected member |
|---|---|---|---|---|---|---|
| main.go:63-68 | `zvolSize = &d.MinSize` stores the address of the range variable `d`. Before Go 1.22 one `d` is shared by every iteration, so the size read later at main.go:92 and 180 is the minimum of the LAST catalog entry. | catalog [alpine-edge (min 4), ubuntu (min 20)], `-distro alpine-edge`, `-zvol-size 0`: the zvol is created with 20G | the size is the chosen entry's minimum when the request is 0 or smaller (4G here) | not executed; depends on the Go release used to build | Catalog.AliasedSizeReadsLastEntry | Catalog.SizeIsMaximum |
