/**
 * The names and paths `main` derives from its inputs (main.go:78, 105-108, 158, 175,
 * 180, 185, 214): the zvol name, the cache directory and the checksum-keyed cache
 * entry, the seed ISO, the zvol's device node, the RAM in KiB, the "<n>G" size
 * argument and the remedial `zfs destroy` line.
 */
module Paths {
  import opened Wrappers

  /** `dir` without one trailing '/'. */
  function TrimSlash(dir: string): string {
    if dir != [] && dir[|dir| - 1] == '/' then dir[..|dir| - 1] else dir
  }

  /**
   * `filepath.Join` of two elements, simplified: empty elements are dropped and exactly
   * one '/' separates the two (no further cleaning of "..", "." or repeated slashes).
   */
  function Join(dir: string, elem: string): string {
    if dir == "" then elem
    else if elem == "" then dir
    else if dir[|dir| - 1] == '/' then dir + elem
    else dir + "/" + elem
  }

  /**
   * An empty element is dropped; otherwise the result is the directory without its
   * trailing '/', one '/', and the element.
   */
  lemma JoinShape(dir: string, elem: string)
    ensures dir == "" ==> Join(dir, elem) == elem
    ensures elem == "" ==> Join(dir, elem) == dir
    ensures dir != "" && elem != "" ==>
      var p, n := Join(dir, elem), |TrimSlash(dir)|;
      |p| == n + 1 + |elem| && p[..n] == TrimSlash(dir) && p[n] == '/' && p[n + 1..] == elem
  {
  }

  /**
   * A single path element: non-empty, no '/', and neither "." nor "..". On such elements
   * `filepath.Join` does no cleaning beyond what `Join` does.
   */
  predicate PlainElement(e: string) {
    e != "" && '/' !in e && e != "." && e != ".."
  }

  /** Under a fixed non-empty directory, different plain elements give different paths. */
  lemma JoinInjective(dir: string, e1: string, e2: string)
    requires dir != "" && PlainElement(e1) && PlainElement(e2)
    requires Join(dir, e1) == Join(dir, e2)
    ensures e1 == e2
  {
    JoinShape(dir, e1);
    JoinShape(dir, e2);
  }

  /** Joining under a non-empty directory gives "<dir without trailing slash>/<elem>". */
  lemma JoinUnder(dir: string, elem: string)
    requires dir != "" && elem != ""
    ensures Join(dir, elem) == TrimSlash(dir) + "/" + elem
  {
    JoinShape(dir, elem);
    var p := Join(dir, elem);
    var n := |TrimSlash(dir)|;
    assert p == p[..n] + [p[n]] + p[n + 1..];
  }

  /** The zvol name `filepath.Join(*zvolPrefix, *name)` (main.go:78). */
  function ZvolName(prefix: string, vm: string): string {
    Join(prefix, vm)
  }

  /** `<user cache dir>/within/mkvm` (main.go:105). */
  function CacheDir(userCache: string): string {
    Join(Join(userCache, "within"), "mkvm")
  }

  /** The cache entry for an image: `<cdir>/qcow2/<checksum>` (main.go:108). */
  function QcowPath(cdir: string, checksum: string): string {
    Join(Join(cdir, "qcow2"), checksum)
  }

  /** The seed ISO: `<cdir>/seed/<name>-<distro>.iso` (main.go:158). */
  function IsoPath(cdir: string, vm: string, distro: string): string {
    Join(Join(cdir, "seed"), vm + "-" + distro + ".iso")
  }

  /** The zvol's block device `/dev/zvol/<zvol>` (main.go:185). */
  function DevicePath(zvol: string): string {
    Join("/dev/zvol", zvol)
  }

  /** The device node of a named zvol is literally "/dev/zvol/<zvol>". */
  lemma DevicePathLayout(zvol: string)
    requires zvol != ""
    ensures DevicePath(zvol) == "/dev/zvol/" + zvol
  {
    JoinUnder("/dev/zvol", zvol);
  }

  /**
   * The cache key depends on the checksum alone and two different checksums never share
   * an entry, for checksums that are plain path elements (hex digests are).
   */
  lemma CacheKeyInjective(cdir: string, sum1: string, sum2: string)
    requires PlainElement(sum1) && PlainElement(sum2)
    ensures QcowPath(cdir, sum1) == QcowPath(cdir, sum2) <==> sum1 == sum2
  {
    if QcowPath(cdir, sum1) == QcowPath(cdir, sum2) {
      JoinInjective(Join(cdir, "qcow2"), sum1, sum2);
    }
  }

  /** Under a cache directory without a trailing '/', the entry is `<cdir>/qcow2/<checksum>` and the ISO `<cdir>/seed/<vm>-<distro>.iso`. */
  lemma CacheKeyLayout(cdir: string, checksum: string, vm: string, distro: string)
    requires cdir != "" && TrimSlash(cdir) == cdir && checksum != ""
    ensures QcowPath(cdir, checksum) == cdir + "/qcow2/" + checksum
    ensures IsoPath(cdir, vm, distro) == cdir + "/seed/" + (vm + "-" + distro + ".iso")
  {
    JoinUnder(cdir, "qcow2");
    JoinUnder(cdir + "/qcow2", checksum);
    JoinUnder(cdir, "seed");
    JoinUnder(cdir + "/seed", vm + "-" + distro + ".iso");
  }

  /** The memory field of the domain descriptor: megabytes times 1024 (main.go:175). */
  function MemoryKiB(megabytes: int): int {
    megabytes * 1024
  }

  /** The descriptor's memory is a whole number of MiB, exactly the requested amount. */
  lemma MemoryKiBExact(megabytes: int)
    ensures MemoryKiB(megabytes) % 1024 == 0 && MemoryKiB(megabytes) / 1024 == megabytes
  {
  }

  /** The remedial command printed when the domain cannot be created (main.go:214). */
  function Remedy(zvol: string): string {
    "zfs destroy " + zvol
  }

  /** The remedy destroys exactly the zvol it is given, and different zvols give different remedies. */
  lemma RemedyNamesZvol(zvol: string, other: string)
    ensures |Remedy(zvol)| == 12 + |zvol| && Remedy(zvol)[..12] == "zfs destroy " && Remedy(zvol)[12..] == zvol
    ensures Remedy(zvol) == Remedy(other) <==> zvol == other
  {
    if Remedy(zvol) == Remedy(other) {
      assert zvol == Remedy(zvol)[12..] && other == Remedy(other)[12..];
    }
  }

  // Decimal rendering of `fmt.Sprintf("%d", n)` and its inverse.

  function DigitChar(d: nat): (c: char)
    requires d < 10
    ensures '0' <= c <= '9' && DigitValue(c) == d
  {
    ('0' as int + d) as char
  }

  function DigitValue(c: char): nat
    requires '0' <= c <= '9'
  {
    c as int - '0' as int
  }

  predicate AllDigits(s: string) {
    forall i :: 0 <= i < |s| ==> '0' <= s[i] <= '9'
  }

  /** The decimal digits of `n`, most significant first. */
  function NatString(n: nat): (s: string)
    ensures s != [] && AllDigits(s)
    decreases n
  {
    if n < 10 then [DigitChar(n)] else NatString(n / 10) + [DigitChar(n % 10)]
  }

  /** `%d`: a '-' before the digits of a negative number. */
  function IntString(n: int): (s: string)
    ensures s != []
  {
    if n < 0 then "-" + NatString(-n) else NatString(n)
  }

  /** The value of a non-empty string of decimal digits. */
  function ParseNat(s: string): Option<nat>
  {
    if s == [] || !AllDigits(s) then None
    else if |s| == 1 then Some(DigitValue(s[0]))
    else
      match ParseNat(s[..|s| - 1])
      case None => None
      case Some(high) => Some(high * 10 + DigitValue(s[|s| - 1]))
  }

  function ParseInt(s: string): Option<int> {
    if s != [] && s[0] == '-' then
      match ParseNat(s[1..])
      case None => None
      case Some(n) => var v: int := n; Some(-v)
    else
      match ParseNat(s)
      case None => None
      case Some(n) => Some(n)
  }

  lemma {:induction false} ParseNatString(n: nat)
    ensures ParseNat(NatString(n)) == Some(n)
    decreases n
  {
    if n >= 10 {
      ParseNatString(n / 10);
      var s := NatString(n);
      assert s[..|s| - 1] == NatString(n / 10);
    }
  }

  /** The `-V` size argument of `zfs create`: `fmt.Sprintf("%dG", size)` (main.go:180). */
  function SizeArg(gigabytes: int): string {
    IntString(gigabytes) + "G"
  }

  function ParseSizeArg(s: string): Option<int> {
    if s != [] && s[|s| - 1] == 'G' then ParseInt(s[..|s| - 1]) else None
  }

  lemma ParseIntString(n: int)
    ensures ParseInt(IntString(n)) == Some(n)
  {
    var s := IntString(n);
    if n < 0 {
      var m: nat := -n;
      ParseNatString(m);
      assert s == "-" + NatString(m);
      assert s[1..] == NatString(m);
      assert ParseNat(s[1..]) == Some(m);
    } else {
      var m: nat := n;
      ParseNatString(m);
      assert s == NatString(m);
      assert AllDigits(s) && s[0] != '-';
    }
  }

  /** The size argument carries exactly the chosen number of gigabytes. */
  lemma SizeArgRoundTrip(gigabytes: int)
    ensures ParseSizeArg(SizeArg(gigabytes)) == Some(gigabytes)
  {
    var s := SizeArg(gigabytes);
    assert s[..|s| - 1] == IntString(gigabytes);
    ParseIntString(gigabytes);
  }
}
