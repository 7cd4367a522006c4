/**
 * The distribution catalog and the choice of disk size (main.go:57-77, 281-286).
 *
 * The catalog is an ordered list of records; `main` scans all of it, compares every
 * name with the requested one exactly, keeps the last matching record and raises the
 * requested zvol size to the record's minimum whenever the request is 0 or smaller.
 */
module Catalog {
  import opened Wrappers

  /** One catalog entry: its name, where to fetch its image, the image checksum, the minimum disk size in GB. */
  datatype Distro = Distro(name: string, downloadUrl: string, sha256Sum: string, minSize: int)

  /** The value `var resultDistro Distro` holds when nothing matched. */
  const NO_DISTRO := Distro("", "", "", 0)

  /** The catalog names in catalog order, as listed when the requested distro is unknown. */
  function Names(ds: seq<Distro>): (names: seq<string>)
    ensures |names| == |ds|
    ensures forall i :: 0 <= i < |ds| ==> names[i] == ds[i].name
  {
    seq(|ds|, i requires 0 <= i < |ds| => ds[i].name)
  }

  /**
   * The listing printed for an unknown distro names a distro exactly when the scan
   * would have found it, so the requested name is never among the listed ones.
   */
  lemma ListingIsComplete(ds: seq<Distro>, want: string)
    ensures want in Names(ds) <==> Known(ds, want)
    ensures Lookup(ds, want).None? <==> want !in Names(ds)
  {
    LookupIsLastMatch(ds, want);
    if Known(ds, want) {
      var i :| 0 <= i < |ds| && ds[i].name == want;
      assert Names(ds)[i] == want;
    }
  }

  /** The catalog carries a positive minimum size for every entry. */
  predicate PositiveMinimums(ds: seq<Distro>) {
    forall i :: 0 <= i < |ds| ==> ds[i].minSize > 0
  }

  /** Is some entry named exactly `want`? */
  predicate Known(ds: seq<Distro>, want: string) {
    exists i :: 0 <= i < |ds| && ds[i].name == want
  }

  /** Specification of the scan's chosen record: the last entry whose name is exactly `want`. */
  function Lookup(ds: seq<Distro>, want: string): Option<Distro>
  {
    if ds == [] then None
    else if ds[|ds| - 1].name == want then Some(ds[|ds| - 1])
    else Lookup(ds[..|ds| - 1], want)
  }

  /**
   * One match's effect on the requested size: 0 means "use the minimum", and a
   * request below the minimum is raised to it.
   */
  function ClampSize(requested: int, minSize: int): (size: int)
    ensures requested == 0 ==> size == minSize
    ensures size >= minSize
    ensures size == requested || size == minSize
    ensures minSize > 0 ==> size == if requested < minSize then minSize else requested
  {
    var afterDefault := if requested == 0 then minSize else requested;
    if afterDefault < minSize then minSize else afterDefault
  }

  /** Specification of the size after the scan: `ClampSize` applied at every match, in catalog order. */
  function SizeAfter(ds: seq<Distro>, want: string, requested: int): int
  {
    if ds == [] then requested
    else
      var before := SizeAfter(ds[..|ds| - 1], want, requested);
      if ds[|ds| - 1].name == want then ClampSize(before, ds[|ds| - 1].minSize) else before
  }

  /**
   * The scan of main.go:57-70: every entry is visited (there is no `break`), so the
   * last match is kept and the size is clamped once per match.
   */
  method SelectDistro(ds: seq<Distro>, want: string, requested: int)
    returns (found: bool, chosen: Distro, size: int)
    ensures found <==> Known(ds, want)
    ensures found ==> Lookup(ds, want) == Some(chosen) && chosen.name == want
    ensures !found ==> chosen == NO_DISTRO && size == requested
    ensures size == SizeAfter(ds, want, requested)
  {
    found, chosen, size := false, NO_DISTRO, requested;
    for i := 0 to |ds|
      invariant found <==> Known(ds[..i], want)
      invariant found ==> Lookup(ds[..i], want) == Some(chosen) && chosen.name == want
      invariant !found ==> chosen == NO_DISTRO && size == requested
      invariant size == SizeAfter(ds[..i], want, requested)
    {
      assert ds[..i + 1][..i] == ds[..i];
      var d := ds[i];
      if d.name == want {
        found := true;
        chosen := d;
        if size == 0 {
          size := d.minSize;
        }
        if size < d.minSize {
          size := d.minSize;
        }
      }
      assert Known(ds[..i + 1], want) <==> Known(ds[..i], want) || d.name == want by {
        if d.name == want {
          assert ds[..i + 1][i] == d;
        }
      }
    }
    assert ds[..|ds|] == ds;
  }

  /** Lookup is exact equality on the name and returns the LAST matching entry. */
  lemma {:induction false} LookupIsLastMatch(ds: seq<Distro>, want: string)
    ensures Lookup(ds, want).None? <==> !Known(ds, want)
    ensures Lookup(ds, want).Some? ==>
      exists k :: 0 <= k < |ds| && ds[k] == Lookup(ds, want).value && ds[k].name == want &&
        forall j :: k < j < |ds| ==> ds[j].name != want
  {
    if ds != [] {
      var init := ds[..|ds| - 1];
      LookupIsLastMatch(init, want);
      if ds[|ds| - 1].name != want {
        if Known(ds, want) {
          var i :| 0 <= i < |ds| && ds[i].name == want;
          assert init[i].name == want;
        }
        if Lookup(ds, want).Some? {
          var k :| 0 <= k < |init| && init[k] == Lookup(init, want).value && init[k].name == want &&
            forall j :: k < j < |init| ==> init[j].name != want;
          assert ds[k] == init[k];
        }
      }
    }
  }

  /**
   * With positive minimums, the chosen size is the maximum of the request and the
   * minimum of every matching entry (for a single match: max(request, MinSize)).
   */
  lemma {:induction false} SizeIsMaximum(ds: seq<Distro>, want: string, requested: int)
    requires PositiveMinimums(ds)
    ensures SizeAfter(ds, want, requested) >= requested
    ensures forall i :: 0 <= i < |ds| && ds[i].name == want ==> SizeAfter(ds, want, requested) >= ds[i].minSize
    ensures SizeAfter(ds, want, requested) == requested ||
      exists i :: 0 <= i < |ds| && ds[i].name == want && SizeAfter(ds, want, requested) == ds[i].minSize
  {
    if ds != [] {
      var init := ds[..|ds| - 1];
      assert PositiveMinimums(init) by {
        forall i | 0 <= i < |init| ensures init[i].minSize > 0 {
          assert init[i] == ds[i];
        }
      }
      SizeIsMaximum(init, want, requested);
      var before := SizeAfter(init, want, requested);
      forall i | 0 <= i < |init| && init[i].name == want
        ensures ds[i].name == want && before >= ds[i].minSize
      {
        assert init[i] == ds[i];
      }
      if before != requested {
        var i :| 0 <= i < |init| && init[i].name == want && before == init[i].minSize;
        assert ds[i] == init[i];
      }
    }
  }

  /** When exactly one entry carries the name, the size is that entry's clamp of the request. */
  lemma {:induction false} SizeOfSingleMatch(ds: seq<Distro>, want: string, requested: int, k: nat)
    requires k < |ds| && ds[k].name == want
    requires forall j :: 0 <= j < |ds| && j != k ==> ds[j].name != want
    ensures SizeAfter(ds, want, requested) == ClampSize(requested, ds[k].minSize)
    ensures Lookup(ds, want) == Some(ds[k])
  {
    if k < |ds| - 1 {
      var init := ds[..|ds| - 1];
      assert init[k] == ds[k];
      forall j | 0 <= j < |init| && j != k ensures init[j].name != want {
        assert init[j] == ds[j];
      }
      SizeOfSingleMatch(init, want, requested, k);
    } else {
      NoMatchKeepsRequest(ds[..|ds| - 1], want, requested);
    }
  }

  /** No matching entry: the request is left as it was. */
  lemma {:induction false} NoMatchKeepsRequest(ds: seq<Distro>, want: string, requested: int)
    requires forall j :: 0 <= j < |ds| ==> ds[j].name != want
    ensures SizeAfter(ds, want, requested) == requested
    ensures Lookup(ds, want) == None
  {
    if ds != [] {
      var init := ds[..|ds| - 1];
      forall j | 0 <= j < |init| ensures init[j].name != want {
        assert init[j] == ds[j];
      }
      NoMatchKeepsRequest(init, want, requested);
    }
  }

  // ---------------------------------------------------------------------------
  // The scan as written, under the loop-variable semantics of Go before 1.22.
  //
  // `zvolSize = &d.MinSize` stores the address of the range variable `d`. Before
  // Go 1.22 there is one `d` for the whole loop, so once its address is stored, `*zvolSize`
  // reads whichever entry `d` currently holds, and after the loop the last
  // catalog entry.
  // ---------------------------------------------------------------------------

  /** What `zvolSize` refers to: the flag's own storage, or the range variable. */
  datatype SizeTarget = FlagStorage | RangeVariable

  /** The value `*zvolSize` reads while the range variable holds `current`. */
  function ReadThrough(target: SizeTarget, requested: int, current: Distro): int {
    match target
    case FlagStorage => requested
    case RangeVariable => current.minSize
  }

  /** What `zvolSize` refers to after the loop has visited `ds` with one shared range variable. */
  function TargetAfterShared(ds: seq<Distro>, want: string, requested: int): SizeTarget
  {
    if ds == [] then FlagStorage
    else
      var before := TargetAfterShared(ds[..|ds| - 1], want, requested);
      var d := ds[|ds| - 1];
      if d.name != want then before
      else
        var t1 := if ReadThrough(before, requested, d) == 0 then RangeVariable else before;
        if ReadThrough(t1, requested, d) < d.minSize then RangeVariable else t1
  }

  /** The size main.go:92 and 180 read when built with a Go release before 1.22. */
  function SizeAsWrittenPre122(ds: seq<Distro>, want: string, requested: int): (size: int)
    ensures ds == [] ==> size == requested
    ensures ds != [] ==> size == requested || size == ds[|ds| - 1].minSize
  {
    if ds == [] then requested
    else ReadThrough(TargetAfterShared(ds, want, requested), requested, ds[|ds| - 1])
  }

  /**
   * A two-entry catalog where the shared range variable makes the size differ from
   * the matched entry's minimum: asking for "alpine-edge" with no size gives 20, the
   * last entry's minimum, where 4 is intended.
   */
  lemma AliasedSizeReadsLastEntry()
    ensures
      var ds := [Distro("alpine-edge", "http://x/alpine.qcow2", "abc123", 4),
                 Distro("ubuntu", "http://x/ubuntu.qcow2", "def456", 20)];
      SizeAsWrittenPre122(ds, "alpine-edge", 0) == 20 && SizeAfter(ds, "alpine-edge", 0) == 4
  {
    var ds := [Distro("alpine-edge", "http://x/alpine.qcow2", "abc123", 4),
               Distro("ubuntu", "http://x/ubuntu.qcow2", "def456", 20)];
    assert ds[..1][..0] == [];
    assert ds[..1] == [ds[0]];
  }
}
