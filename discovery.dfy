/**
  Control-file discovery (`_auto_find_paths`, teste.py:239-274): walk the
  platform device tree and remember, for each of the two control files, the
  full path under the last directory seen so far whose path contains
  `acer-wmi`; stop as soon as both are known. The directory walk itself is an
  input: the sequence of entries `os.walk` would produce, in its order.
 */
module Discovery {
  import opened PyStr
  import opened PosixPath

  const VendorMarker := "acer-wmi"
  const ModeFile := "fan_mode"
  const SpeedFile := "fan_speed"

  /**
    One step of the walk of `/sys/devices/platform/`: a directory with the
    names of the files in it, or the exception the walk raises when this step
    is requested. `os.walk` runs with its default error handler, which skips
    a directory it cannot list; such a directory is simply absent from the
    walk, so a `Failure` stands for any other exception, not for a
    permission error while listing.
   */
  datatype WalkEntry =
    | Entry(root: string, files: set<string>)
    | Failure(reason: string)

  /**
    How the search ends: with the two accumulated paths (`""` for one not
    found) after `examined` entries were taken from the walk, or aborted by
    an exception, discarding whatever had been found.
   */
  datatype Outcome =
    | Located(mode: string, speed: string, examined: nat)
    | Aborted(reason: string)

  /** The entry is a vendor directory holding a file called `name`. */
  predicate Offers(e: WalkEntry, name: string) {
    e.Entry? && Contains(e.root, VendorMarker) && name in e.files
  }

  /** The accumulator for `name` after seeing entry `e`: overwritten when `e` offers the file. */
  function Record(e: WalkEntry, name: string, acc: string): (r: string) {
    if Offers(e, name) then Join(e.root, name) else acc
  }

  /** The loop of teste.py:247-254 from entry `i` on, with the accumulators so far. */
  function Scan(walk: seq<WalkEntry>, i: nat, mode: string, speed: string): (o: Outcome)
    requires i <= |walk|
    decreases |walk| - i
  {
    if i == |walk| then Located(mode, speed, i)
    else if walk[i].Failure? then Aborted(walk[i].reason)
    else
      var m := Record(walk[i], ModeFile, mode);
      var s := Record(walk[i], SpeedFile, speed);
      if m != "" && s != "" then Located(m, s, i + 1) else Scan(walk, i + 1, m, s)
  }

  /** The result of the search over a whole walk, both accumulators starting empty. */
  function Discover(walk: seq<WalkEntry>): (o: Outcome) {
    Scan(walk, 0, "", "")
  }

  /** The search as the source runs it: a loop with an early exit. */
  method FindControlFiles(walk: seq<WalkEntry>) returns (outcome: Outcome)
    ensures outcome == Discover(walk)
  {
    var foundMode, foundSpeed := "", "";
    var i := 0;
    while i < |walk|
      invariant i <= |walk|
      invariant Scan(walk, i, foundMode, foundSpeed) == Discover(walk)
    {
      match walk[i]
      case Failure(reason) =>
        return Aborted(reason);
      case Entry(root, files) =>
        if Contains(root, VendorMarker) {
          if ModeFile in files {
            foundMode := Join(root, ModeFile);
          }
          if SpeedFile in files {
            foundSpeed := Join(root, SpeedFile);
          }
        }
      i := i + 1;
      if foundMode != "" && foundSpeed != "" {
        return Located(foundMode, foundSpeed, i);
      }
    }
    return Located(foundMode, foundSpeed, i);
  }

  // ---------------------------------------------------------------------------
  // What the search means, stated without the loop

  /** The path recorded for `name` after the given entries: from the last one offering the file, or `""`. */
  ghost function Latest(entries: seq<WalkEntry>, name: string): string
    decreases |entries|
  {
    if entries == [] then ""
    else Record(entries[|entries| - 1], name, Latest(entries[..|entries| - 1], name))
  }

  /** Both control files are known after these entries. */
  ghost predicate Complete(entries: seq<WalkEntry>) {
    Latest(entries, ModeFile) != "" && Latest(entries, SpeedFile) != ""
  }

  /** The walk produced these entries without raising. */
  ghost predicate Clean(entries: seq<WalkEntry>) {
    forall k :: 0 <= k < |entries| ==> entries[k].Entry?
  }

  /** Neither file pair was complete after any of the first `n` entries (nor before them). */
  ghost predicate NeverComplete(walk: seq<WalkEntry>, n: nat)
    requires n <= |walk|
  {
    forall k :: 0 <= k <= n ==> !Complete(walk[..k])
  }

  /** Entry `e` is the first failure of the walk, reached before both files were known. */
  ghost predicate FailsFirstAt(walk: seq<WalkEntry>, e: nat, reason: string) {
    && e < |walk|
    && walk[e] == Failure(reason)
    && Clean(walk[..e])
    && NeverComplete(walk, e)
  }

  /** Entry `j` is the last of `entries` that offers `name`, and the recorded path comes from it. */
  ghost predicate RecordedFrom(entries: seq<WalkEntry>, name: string, j: nat) {
    && j < |entries|
    && Offers(entries[j], name)
    && (forall k :: j < k < |entries| ==> !Offers(entries[k], name))
    && Latest(entries, name) == Join(entries[j].root, name)
  }

  /**
    The outcome is the one the source intends for this walk: a located pair
    is what the examined prefix records, that prefix raised nothing, and it
    ends at the first point where both files are known (or at the end of the
    walk); an abort comes from the first failure, reached before both files
    were known.
   */
  ghost predicate Explains(walk: seq<WalkEntry>, outcome: Outcome) {
    match outcome
    case Located(m, s, n) =>
      && n <= |walk|
      && Clean(walk[..n])
      && m == Latest(walk[..n], ModeFile)
      && s == Latest(walk[..n], SpeedFile)
      && (n == |walk| || Complete(walk[..n]))
      && (forall k :: 0 <= k < n ==> !Complete(walk[..k]))
    case Aborted(reason) =>
      exists e: nat :: FailsFirstAt(walk, e, reason)
  }

  lemma LatestStep(walk: seq<WalkEntry>, i: nat, name: string)
    requires i < |walk|
    ensures Latest(walk[..i + 1], name) == Record(walk[i], name, Latest(walk[..i], name))
  {
    assert walk[..i + 1][..i] == walk[..i];
  }

  lemma {:induction false} ScanExplained(walk: seq<WalkEntry>, i: nat, mode: string, speed: string)
    requires i <= |walk|
    requires Clean(walk[..i])
    requires mode == Latest(walk[..i], ModeFile) && speed == Latest(walk[..i], SpeedFile)
    requires NeverComplete(walk, i)
    ensures Explains(walk, Scan(walk, i, mode, speed))
    decreases |walk| - i
  {
    if i == |walk| {
      assert walk[..i] == walk;
    } else if walk[i].Failure? {
      assert FailsFirstAt(walk, i, walk[i].reason);
    } else {
      var m := Record(walk[i], ModeFile, mode);
      var s := Record(walk[i], SpeedFile, speed);
      LatestStep(walk, i, ModeFile);
      LatestStep(walk, i, SpeedFile);
      assert walk[..i + 1] == walk[..i] + [walk[i]];
      if m == "" || s == "" {
        ScanExplained(walk, i + 1, m, s);
      }
    }
  }

  /** Discovery delivers exactly the outcome described by `Explains`. */
  lemma DiscoverExplained(walk: seq<WalkEntry>)
    ensures Explains(walk, Discover(walk))
  {
    assert walk[..0] == [];
    ScanExplained(walk, 0, "", "");
  }

  /** The recorded path is empty exactly when no entry offers the file. */
  lemma {:induction false} LatestEmptyIffNoOffer(entries: seq<WalkEntry>, name: string)
    requires name != []
    ensures Latest(entries, name) == "" <==> forall k :: 0 <= k < |entries| ==> !Offers(entries[k], name)
    decreases |entries|
  {
    if entries != [] {
      var n := |entries| - 1;
      var init := entries[..n];
      LatestEmptyIffNoOffer(init, name);
      assert forall k :: 0 <= k < n ==> entries[k] == init[k];
    }
  }

  /**
    A non-empty recorded path is the joined path from the last entry that
    offers the file: a later qualifying directory overwrites an earlier one.
   */
  lemma {:induction false} LatestIsLastOffer(entries: seq<WalkEntry>, name: string)
    requires Latest(entries, name) != ""
    ensures exists j: nat :: RecordedFrom(entries, name, j)
    decreases |entries|
  {
    assert entries != [];
    var n := |entries| - 1;
    var init := entries[..n];
    assert Latest(entries, name) == Record(entries[n], name, Latest(init, name));
    if Offers(entries[n], name) {
      assert RecordedFrom(entries, name, n);
    } else {
      LatestIsLastOffer(init, name);
      var j: nat :| RecordedFrom(init, name, j);
      assert entries[j] == init[j];
      assert forall k :: j < k < |entries| ==> !Offers(entries[k], name) by {
        forall k | j < k < |entries| ensures !Offers(entries[k], name) {
          if k < n {
            assert entries[k] == init[k];
          }
        }
      }
      assert RecordedFrom(entries, name, j);
    }
  }

  /** When no directory offers either file, all of the walk is read and nothing is found. */
  lemma NothingToFind(walk: seq<WalkEntry>)
    requires Clean(walk)
    requires forall k :: 0 <= k < |walk| ==> !Offers(walk[k], ModeFile) && !Offers(walk[k], SpeedFile)
    ensures Discover(walk) == Located("", "", |walk|)
  {
    DiscoverExplained(walk);
    assert Discover(walk).Located?;
    var n := Discover(walk).examined;
    var p := walk[..n];
    assert forall k :: 0 <= k < |p| ==> p[k] == walk[k];
    LatestEmptyIffNoOffer(p, ModeFile);
    LatestEmptyIffNoOffer(p, SpeedFile);
  }

  /**
    A failure reached before both files are known aborts the search, and the
    abort carries no path: partial finds are dropped.
   */
  lemma FailureAborts(walk: seq<WalkEntry>, e: nat, reason: string)
    requires FailsFirstAt(walk, e, reason)
    ensures Discover(walk) == Aborted(reason)
  {
    DiscoverExplained(walk);
    if Discover(walk).Aborted? {
      var r := Discover(walk).reason;
      var e': nat :| FailsFirstAt(walk, e', r);
    }
  }

  /** A walk that offers both files in one directory right away stops after that directory. */
  lemma StopsAfterBothFound(root: string, files: set<string>, rest: seq<WalkEntry>)
    requires Contains(root, VendorMarker) && ModeFile in files && SpeedFile in files
    ensures Discover([Entry(root, files)] + rest) ==
      Located(Join(root, ModeFile), Join(root, SpeedFile), 1)
  {
  }
}
