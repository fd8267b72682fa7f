/**
 * ChromeDriver housekeeping: pruning old driver versions from
 * `~/.auto_mudfish/chromedriver`, finding the installed Chrome version in the
 * Windows registry, choosing a driver download through a chain of fallbacks,
 * reusing a driver already on disk, and assembling the options and service a
 * `ChromeDriver` starts with.
 *
 * The registry (`reg query`), HTTP (`requests.get`/`requests.head`) and the
 * file system are oracles passed in as functions.
 */
module Chromedriver {
  import opened Common
  import opened Text

  // ---------------------------------------------------------------------
  // Orders on directory names, and sorting by them
  // ---------------------------------------------------------------------

  /** `le` is total and transitive, as a sort key order must be. */
  ghost predicate TotalPreorder(le: (string, string) -> bool) {
    && (forall a, b :: le(a, b) || le(b, a))
    && (forall a, b, c :: le(a, b) && le(b, c) ==> le(a, c))
  }

  /** `s` is in descending order under `le`. */
  predicate Descending(s: seq<string>, le: (string, string) -> bool) {
    forall i, j :: 0 <= i < j < |s| ==> le(s[j], s[i])
  }

  /** Inserts `x` into the descending sequence `s`, before the first element not above it. */
  function Insert(x: string, s: seq<string>, le: (string, string) -> bool): (r: seq<string>)
    ensures |r| == |s| + 1
    decreases |s|
  {
    if s == [] || le(s[0], x) then [x] + s else [s[0]] + Insert(x, s[1..], le)
  }

  /** `list.sort(reverse=True)` under the order `le`. */
  function SortDescending(s: seq<string>, le: (string, string) -> bool): (r: seq<string>)
    ensures |r| == |s|
    decreases |s|
  {
    if s == [] then [] else Insert(s[0], SortDescending(s[1..], le), le)
  }

  lemma {:induction false} InsertPermutes(x: string, s: seq<string>, le: (string, string) -> bool)
    ensures multiset(Insert(x, s, le)) == multiset(s) + multiset{x}
    decreases |s|
  {
    if s != [] && !le(s[0], x) {
      InsertPermutes(x, s[1..], le);
      assert s == [s[0]] + s[1..];
    }
  }

  lemma {:induction false} InsertDescending(x: string, s: seq<string>, le: (string, string) -> bool)
    requires TotalPreorder(le) && Descending(s, le)
    ensures Descending(Insert(x, s, le), le)
    decreases |s|
  {
    if s == [] {
    } else if le(s[0], x) {
      var r := [x] + s;
      forall i, j | 0 <= i < j < |r|
        ensures le(r[j], r[i])
      {
        if i == 0 && j > 1 {
          assert le(s[j - 1], s[0]);
        } else if i > 0 {
          assert r[i] == s[i - 1] && r[j] == s[j - 1];
        }
      }
    } else {
      assert le(x, s[0]);
      var t := Insert(x, s[1..], le);
      InsertDescending(x, s[1..], le);
      InsertPermutes(x, s[1..], le);
      var r := [s[0]] + t;
      forall i, j | 0 <= i < j < |r|
        ensures le(r[j], r[i])
      {
        if i == 0 {
          var y := t[j - 1];
          assert y in multiset(t);
          if y != x {
            assert y in multiset(s[1..]);
            var k :| 0 <= k < |s[1..]| && s[1..][k] == y;
            assert le(s[k + 1], s[0]);
          }
        } else {
          assert r[i] == t[i - 1] && r[j] == t[j - 1];
        }
      }
    }
  }

  /** Sorting yields a descending permutation of its input. */
  lemma {:induction false} SortDescendingCorrect(s: seq<string>, le: (string, string) -> bool)
    requires TotalPreorder(le)
    ensures Descending(SortDescending(s, le), le)
    ensures multiset(SortDescending(s, le)) == multiset(s)
    decreases |s|
  {
    if s != [] {
      SortDescendingCorrect(s[1..], le);
      InsertDescending(s[0], SortDescending(s[1..], le), le);
      InsertPermutes(s[0], SortDescending(s[1..], le), le);
      assert s == [s[0]] + s[1..];
    }
  }

  /** Python's string order is a total preorder. */
  lemma StringOrder()
    ensures TotalPreorder(LexLe)
  {
    forall a, b
      ensures LexLe(a, b) || LexLe(b, a)
    {
      LexLeTotal(a, b);
    }
    forall a, b, c | LexLe(a, b) && LexLe(b, c)
      ensures LexLe(a, c)
    {
      LexLeTransitive(a, b, c);
    }
  }

  /** The value of one decimal digit; any other character counts as 0. */
  function DigitValue(c: char): nat {
    if '0' <= c <= '9' then c as int - '0' as int else 0
  }

  /** The decimal number a component of a version name spells. */
  function DecimalValue(s: string): nat
    decreases |s|
  {
    if s == [] then 0 else DecimalValue(s[..|s| - 1]) * 10 + DigitValue(s[|s| - 1])
  }

  /** A version name as the numbers between its dots: "131.0.6778.85" is [131, 0, 6778, 85]. */
  function VersionKey(name: string): (key: seq<nat>)
    ensures |key| == |Split(name, '.')|
  {
    var parts := Split(name, '.');
    seq(|parts|, i requires 0 <= i < |parts| => DecimalValue(parts[i]))
  }

  /** Lexicographic order on number sequences. */
  predicate KeyLe(a: seq<nat>, b: seq<nat>)
    decreases |a|
  {
    |a| == 0 || (|b| > 0 && (a[0] < b[0] || (a[0] == b[0] && KeyLe(a[1..], b[1..]))))
  }

  lemma {:induction false} KeyLeTotal(a: seq<nat>, b: seq<nat>)
    ensures KeyLe(a, b) || KeyLe(b, a)
    decreases |a|
  {
    if |a| > 0 && |b| > 0 && a[0] == b[0] {
      KeyLeTotal(a[1..], b[1..]);
    }
  }

  lemma {:induction false} KeyLeTransitive(a: seq<nat>, b: seq<nat>, c: seq<nat>)
    requires KeyLe(a, b) && KeyLe(b, c)
    ensures KeyLe(a, c)
    decreases |a|
  {
    if |a| > 0 && a[0] == b[0] && b[0] == c[0] {
      KeyLeTransitive(a[1..], b[1..], c[1..]);
    }
  }

  /** Version order: dotted components compared as numbers. */
  predicate VersionLe(a: string, b: string) {
    KeyLe(VersionKey(a), VersionKey(b))
  }

  /** Version order is a total preorder. */
  lemma VersionOrder()
    ensures TotalPreorder(VersionLe)
  {
    forall a, b
      ensures VersionLe(a, b) || VersionLe(b, a)
    {
      KeyLeTotal(VersionKey(a), VersionKey(b));
    }
    forall a, b, c | VersionLe(a, b) && VersionLe(b, c)
      ensures VersionLe(a, c)
    {
      KeyLeTransitive(VersionKey(a), VersionKey(b), VersionKey(c));
    }
  }

  // ---------------------------------------------------------------------
  // Pruning old driver versions
  // ---------------------------------------------------------------------

  /** One entry of the chromedriver directory, and whether it is a directory. */
  datatype Entry = Entry(name: string, isDir: bool)

  /** The version directories among the entries, in listing order. */
  function VersionDirs(entries: seq<Entry>): (dirs: seq<string>)
    ensures |dirs| <= |entries|
    ensures forall d :: d in dirs <==> Entry(d, true) in entries
    decreases |entries|
  {
    if entries == [] then []
    else
      var rest := VersionDirs(entries[1..]);
      assert entries == [entries[0]] + entries[1..];
      (if entries[0].isDir then [entries[0].name] else []) + rest
  }

  /** The directories kept when more than three are sorted descending under `le`: the first three. */
  function Kept(dirs: seq<string>, le: (string, string) -> bool): seq<string>
    requires |dirs| > 3
  {
    SortDescending(dirs, le)[..3]
  }

  /** The directories removed when more than three are sorted descending under `le`: all after the first three. */
  function Removed(dirs: seq<string>, le: (string, string) -> bool): seq<string>
    requires |dirs| > 3
  {
    SortDescending(dirs, le)[3..]
  }

  /** The directories pruned, in removal order, when the version directories are ordered by `le`. */
  function PruneTargets(present: bool, entries: seq<Entry>, le: (string, string) -> bool): seq<string> {
    if !present || |VersionDirs(entries)| <= 3 then [] else Removed(VersionDirs(entries), le)
  }

  /** The pruning the code performs: version names ordered as strings. */
  function PruneTargetsAsWritten(present: bool, entries: seq<Entry>): seq<string> {
    PruneTargets(present, entries, LexLe)
  }

  /** The pruning the code intends: version names ordered as versions. */
  function CleanupTargets(present: bool, entries: seq<Entry>): seq<string> {
    PruneTargets(present, entries, VersionLe)
  }

  /** The names among `names` whose removal succeeds, in order. */
  function Succeeded(names: seq<string>, fails: string -> bool): (ok: seq<string>)
    ensures |ok| <= |names|
    decreases |names|
  {
    if names == [] then []
    else
      var last := names[|names| - 1];
      assert names == names[..|names| - 1] + [last];
      Succeeded(names[..|names| - 1], fails) + (if fails(last) then [] else [last])
  }

  /** Attempting one more removal keeps the earlier successes and adds this one if it works. */
  lemma SucceededAppend(names: seq<string>, name: string, fails: string -> bool)
    ensures Succeeded(names + [name], fails) == Succeeded(names, fails) + (if fails(name) then [] else [name])
  {
    assert (names + [name])[..|names|] == names;
  }

  /** Nothing is pruned when the directory is missing or holds at most three versions. */
  lemma PruneNothingWhenFew(present: bool, entries: seq<Entry>, le: (string, string) -> bool)
    requires !present || |VersionDirs(entries)| <= 3
    ensures PruneTargets(present, entries, le) == []
  {
  }

  /**
   * With more than three version directories, three are kept, every other
   * directory (and nothing else) is removed, and no kept directory is below a
   * removed one in the order `le`.
   */
  lemma {:induction false} PruneKeepsThreeGreatest(dirs: seq<string>, le: (string, string) -> bool)
    requires TotalPreorder(le) && |dirs| > 3
    ensures |Kept(dirs, le)| == 3 && |Removed(dirs, le)| == |dirs| - 3
    ensures multiset(Kept(dirs, le)) + multiset(Removed(dirs, le)) == multiset(dirs)
    ensures forall k, r :: k in Kept(dirs, le) && r in Removed(dirs, le) ==> le(r, k)
  {
    var sorted := SortDescending(dirs, le);
    SortDescendingCorrect(dirs, le);
    assert sorted == sorted[..3] + sorted[3..];
    forall k, r | k in sorted[..3] && r in sorted[3..]
      ensures le(r, k)
    {
      var i :| 0 <= i < 3 && sorted[..3][i] == k;
      var j :| 0 <= j < |sorted| - 3 && sorted[3..][j] == r;
      assert sorted[i] == k && sorted[j + 3] == r;
    }
  }

  /** As written: the three greatest names in string order survive; only directories are touched. */
  lemma StringOrderRetention(present: bool, entries: seq<Entry>)
    requires present && |VersionDirs(entries)| > 3
    ensures var dirs := VersionDirs(entries);
      && multiset(Kept(dirs, LexLe)) + multiset(PruneTargetsAsWritten(present, entries)) == multiset(dirs)
      && |PruneTargetsAsWritten(present, entries)| == |dirs| - 3
      && (forall k, r :: k in Kept(dirs, LexLe) && r in PruneTargetsAsWritten(present, entries) ==> LexLe(r, k))
      && (forall r :: r in PruneTargetsAsWritten(present, entries) ==> Entry(r, true) in entries)
  {
    StringOrder();
    var dirs := VersionDirs(entries);
    PruneKeepsThreeGreatest(dirs, LexLe);
    forall r | r in PruneTargetsAsWritten(present, entries)
      ensures Entry(r, true) in entries
    {
      assert r in multiset(Removed(dirs, LexLe));
      assert r in multiset(dirs);
    }
  }

  /** Intended: the three newest versions survive; only directories are touched. */
  lemma VersionOrderRetention(present: bool, entries: seq<Entry>)
    requires present && |VersionDirs(entries)| > 3
    ensures var dirs := VersionDirs(entries);
      && multiset(Kept(dirs, VersionLe)) + multiset(CleanupTargets(present, entries)) == multiset(dirs)
      && |CleanupTargets(present, entries)| == |dirs| - 3
      && (forall k, r :: k in Kept(dirs, VersionLe) && r in CleanupTargets(present, entries) ==> VersionLe(r, k))
      && (forall r :: r in CleanupTargets(present, entries) ==> Entry(r, true) in entries)
  {
    VersionOrder();
    var dirs := VersionDirs(entries);
    PruneKeepsThreeGreatest(dirs, VersionLe);
    forall r | r in CleanupTargets(present, entries)
      ensures Entry(r, true) in entries
    {
      assert r in multiset(Removed(dirs, VersionLe));
      assert r in multiset(dirs);
    }
  }

  /** Four driver directories named by major version, as the last download fallback names them. */
  function MajorDirs(): seq<Entry> {
    [Entry("99", true), Entry("100", true), Entry("101", true), Entry("131", true)]
  }

  lemma MajorDirsListed()
    ensures VersionDirs(MajorDirs()) == ["99", "100", "101", "131"]
  {
    var e := MajorDirs();
    assert e[1..][1..][1..][1..] == [];
    assert VersionDirs(e[1..][1..][1..]) == ["131"];
    assert VersionDirs(e[1..][1..]) == ["101", "131"];
    assert VersionDirs(e[1..]) == ["100", "101", "131"];
  }

  lemma StringSortOfMajors()
    ensures SortDescending(["99", "100", "101", "131"], LexLe) == ["99", "131", "101", "100"]
  {
    var s3 := SortDescending(["131"], LexLe);
    assert ["131"][1..] == [];
    assert s3 == ["131"];
    var s2 := SortDescending(["101", "131"], LexLe);
    assert ["101", "131"][1..] == ["131"];
    assert !LexLe("131", "101") by { assert "131"[1..] == "31" && "101"[1..] == "01"; }
    assert s2 == Insert("101", s3, LexLe) == ["131", "101"];
    var s1 := SortDescending(["100", "101", "131"], LexLe);
    assert ["100", "101", "131"][1..] == ["101", "131"];
    assert !LexLe("131", "100") by { assert "131"[1..] == "31" && "100"[1..] == "00"; }
    assert !LexLe("101", "100") by { assert "101"[1..] == "01" && "100"[1..] == "00" && "01"[1..] == "1" && "00"[1..] == "0"; }
    assert Insert("100", [], LexLe) == ["100"];
    assert Insert("100", ["101"], LexLe) == ["101", "100"];
    assert s1 == Insert("100", s2, LexLe) == ["131", "101", "100"];
    assert ["99", "100", "101", "131"][1..] == ["100", "101", "131"];
    assert LexLe("131", "99");
    assert Insert("99", s1, LexLe) == ["99", "131", "101", "100"];
  }

  /** Four listed directories sorted into `sorted`: the last of `sorted` is removed. */
  lemma TargetsOfSorted(entries: seq<Entry>, le: (string, string) -> bool, dirs: seq<string>, sorted: seq<string>)
    requires VersionDirs(entries) == dirs && |dirs| == 4 && SortDescending(dirs, le) == sorted
    ensures PruneTargets(true, entries, le) == [sorted[3]]
  {
    assert |sorted| == 4;
    assert sorted[3..] == [sorted[3]];
  }

  /** As written, string order ranks "99" above "131": the oldest driver survives and driver 100 is deleted. */
  lemma StringOrderDeletesNewer()
    ensures PruneTargetsAsWritten(true, MajorDirs()) == ["100"]
  {
    MajorDirsListed();
    StringSortOfMajors();
    TargetsOfSorted(MajorDirs(), LexLe, ["99", "100", "101", "131"], ["99", "131", "101", "100"]);
  }

  lemma VersionKeysOfMajors()
    ensures VersionKey("99") == [99] && VersionKey("100") == [100]
    ensures VersionKey("101") == [101] && VersionKey("131") == [131]
  {
    SplitWithoutSeparator("99", '.');
    SplitWithoutSeparator("100", '.');
    SplitWithoutSeparator("101", '.');
    SplitWithoutSeparator("131", '.');
    assert DecimalValue("99") == 99 by { assert "99"[..1] == "9"; }
    assert DecimalValue("100") == 100 by { assert "100"[..2] == "10" && "10"[..1] == "1"; }
    assert DecimalValue("101") == 101 by { assert "101"[..2] == "10" && "10"[..1] == "1"; }
    assert DecimalValue("131") == 131 by { assert "131"[..2] == "13" && "13"[..1] == "1"; }
  }

  lemma VersionSortOfMajors()
    ensures SortDescending(["99", "100", "101", "131"], VersionLe) == ["131", "101", "100", "99"]
  {
    VersionKeysOfMajors();
    var s3 := SortDescending(["131"], VersionLe);
    assert ["131"][1..] == [];
    assert s3 == ["131"];
    var s2 := SortDescending(["101", "131"], VersionLe);
    assert ["101", "131"][1..] == ["131"];
    assert !VersionLe("131", "101");
    assert s2 == Insert("101", s3, VersionLe) == ["131", "101"];
    var s1 := SortDescending(["100", "101", "131"], VersionLe);
    assert ["100", "101", "131"][1..] == ["101", "131"];
    assert !VersionLe("131", "100") && !VersionLe("101", "100");
    assert Insert("100", [], VersionLe) == ["100"];
    assert Insert("100", ["101"], VersionLe) == ["101", "100"];
    assert s1 == Insert("100", s2, VersionLe) == ["131", "101", "100"];
    assert ["99", "100", "101", "131"][1..] == ["100", "101", "131"];
    assert !VersionLe("131", "99") && !VersionLe("101", "99") && !VersionLe("100", "99");
    assert Insert("99", [], VersionLe) == ["99"];
    assert Insert("99", ["100"], VersionLe) == ["100", "99"];
    assert Insert("99", ["101", "100"], VersionLe) == ["101", "100", "99"];
    assert Insert("99", s1, VersionLe) == ["131", "101", "100", "99"];
  }

  /** In version order the same directories lose driver 99, the oldest. */
  lemma VersionOrderDeletesOldest()
    ensures CleanupTargets(true, MajorDirs()) == ["99"]
  {
    MajorDirsListed();
    VersionSortOfMajors();
    TargetsOfSorted(MajorDirs(), VersionLe, ["99", "100", "101", "131"], ["131", "101", "100", "99"]);
  }

  /** The chromedriver cache directory, and the `shutil.rmtree` calls made on it. */
  class DriverCache {
    /** Whether `~/.auto_mudfish/chromedriver` exists. */
    const present: bool
    /** What `os.listdir` returns for it. */
    const entries: seq<Entry>
    /** Whether `shutil.rmtree` raises for a version directory. */
    const rmtreeFails: string -> bool
    /** Every version directory removal attempted, in order. */
    var attempted: seq<string>
    /** Every version directory actually removed, in order. */
    var removed: seq<string>

    constructor (present: bool, entries: seq<Entry>, rmtreeFails: string -> bool)
      ensures this.present == present && this.entries == entries && this.rmtreeFails == rmtreeFails
      ensures attempted == [] && removed == []
    {
      this.present := present;
      this.entries := entries;
      this.rmtreeFails := rmtreeFails;
      attempted := [];
      removed := [];
    }

    /**
     * `_cleanup_old_chromedrivers`: sorts the version directory names as
     * strings, keeps the first three and tries to remove each of the others;
     * a failed removal does not stop the rest.
     */
    method CleanupOldChromedrivers()
      modifies this
      ensures attempted == old(attempted) + PruneTargetsAsWritten(present, entries)
      ensures removed == old(removed) + Succeeded(PruneTargetsAsWritten(present, entries), rmtreeFails)
    {
      if !present {
        return;
      }
      var versionDirs := VersionDirs(entries);
      if |versionDirs| <= 3 {
        return;
      }
      versionDirs := SortDescending(versionDirs, LexLe);
      RemoveEach(versionDirs[3..]);
    }

    /** The removal loop: one `rmtree` per directory, each failure caught. */
    method RemoveEach(targets: seq<string>)
      modifies this
      ensures attempted == old(attempted) + targets
      ensures removed == old(removed) + Succeeded(targets, rmtreeFails)
    {
      var i := 0;
      while i < |targets|
        invariant 0 <= i <= |targets|
        invariant attempted == old(attempted) + targets[..i]
        invariant removed == old(removed) + Succeeded(targets[..i], rmtreeFails)
      {
        var oldVersion := targets[i];
        assert targets[..i + 1] == targets[..i] + [oldVersion];
        SucceededAppend(targets[..i], oldVersion, rmtreeFails);
        attempted := attempted + [oldVersion];
        if !rmtreeFails(oldVersion) {
          removed := removed + [oldVersion];
        }
        i := i + 1;
      }
      assert targets[..i] == targets;
    }
  }

  /** A removal that fails does not stop the others: a target is removed exactly when its own removal works. */
  lemma {:induction false} FailuresDoNotStopCleanup(targets: seq<string>, fails: string -> bool, t: string)
    ensures t in Succeeded(targets, fails) <==> t in targets && !fails(t)
    decreases |targets|
  {
    if targets != [] {
      var init, last := targets[..|targets| - 1], targets[|targets| - 1];
      assert targets == init + [last];
      FailuresDoNotStopCleanup(init, fails, t);
    }
  }

  // ---------------------------------------------------------------------
  // The installed Chrome version
  // ---------------------------------------------------------------------

  /** What one `reg query ... /v version` run returns. */
  datatype RegQuery = RegQuery(returncode: int, stdout: string)

  const UserKey := "HKEY_CURRENT_USER\\Software\\Google\\Chrome\\BLBeacon"
  const MachineKey := "HKEY_LOCAL_MACHINE\\SOFTWARE\\Google\\Chrome\\BLBeacon"

  /** A Chrome version: the full version string and its major part. */
  datatype ChromeVersion = ChromeVersion(full: string, major: string)

  /** A line of `reg query` output that names the version value. */
  predicate IsVersionLine(line: string) {
    Contains(Lower(line), "version")
  }

  /** The index of the first version line, or `|lines|` when there is none. */
  function FirstVersionLine(lines: seq<string>): (k: nat)
    ensures k <= |lines|
    ensures forall i :: 0 <= i < k ==> !IsVersionLine(lines[i])
    ensures k < |lines| ==> IsVersionLine(lines[k])
    decreases |lines|
  {
    if lines == [] then 0
    else if IsVersionLine(lines[0]) then 0
    else
      var k := FirstVersionLine(lines[1..]);
      assert forall i :: 1 <= i < k + 1 ==> lines[i] == lines[1..][i - 1];
      k + 1
  }

  /** A version line has a word: the `v` of "version" is not a space. */
  lemma VersionLineHasWord(line: string)
    requires IsVersionLine(line)
    ensures Words(line) != []
  {
    var low := Lower(line);
    var i :| OccursAt(low, "version", i);
    assert OccursAt(low, "version", i);
    assert low[i] == "version"[0] == 'v';
    assert line[i] == 'v' || line[i] == 'V';
    WordsNonEmpty(line, i);
  }

  /**
   * The version in `reg query` output: the last word of the first line that
   * mentions "version" in any case, and the part of it before the first dot.
   */
  function ParseChromeVersion(stdout: string): (v: Option<ChromeVersion>)
    ensures var lines := Split(stdout, '\n'); var k := FirstVersionLine(lines);
      && (v.None? <==> k == |lines|)
      && (v.Some? ==> var ws := Words(lines[k]); |ws| > 0 && v.value.full == ws[|ws| - 1])
    ensures v.Some? ==> v.value.full != "" && NoSpace(v.value.full)
    ensures v.Some? ==> v.value.major == Split(v.value.full, '.')[0]
  {
    var lines := Split(stdout, '\n');
    var k := FirstVersionLine(lines);
    if k == |lines| then None
    else
      assert IsVersionLine(lines[k]);
      VersionLineHasWord(lines[k]);
      var words := Words(lines[k]);
      var full := words[|words| - 1];
      Some(ChromeVersion(full, Split(full, '.')[0]))
  }

  /** Parsing fails exactly when no line of the output mentions "version". */
  lemma ParseFailsIffNoVersionLine(stdout: string)
    ensures ParseChromeVersion(stdout).None? <==>
      forall i :: 0 <= i < |Split(stdout, '\n')| ==> !IsVersionLine(Split(stdout, '\n')[i])
  {
    var lines := Split(stdout, '\n');
    var k := FirstVersionLine(lines);
    if k < |lines| {
      assert ParseChromeVersion(stdout).Some?;
      assert IsVersionLine(Split(stdout, '\n')[k]);
    } else {
      assert ParseChromeVersion(stdout).None?;
    }
  }

  /** The major version is everything before the first dot: a dot-free prefix ending at a dot or at the end. */
  lemma {:induction false} MajorIsLeadingComponent(full: string)
    ensures var major := Split(full, '.')[0];
      && |major| <= |full| && full[..|major|] == major && '.' !in major
      && (|major| == |full| || full[|major|] == '.')
    decreases |full|
  {
    if |full| > 0 && full[0] != '.' {
      MajorIsLeadingComponent(full[1..]);
    }
  }

  /** The output of the first registry query that succeeds: the user key first, then the machine key. */
  function RegistryOutput(reg: string -> RegQuery): Option<string> {
    if reg(UserKey).returncode == 0 then Some(reg(UserKey).stdout)
    else if reg(MachineKey).returncode == 0 then Some(reg(MachineKey).stdout)
    else None
  }

  /** The keys queried: the machine key only after the user key fails. */
  function RegistryQueries(reg: string -> RegQuery): seq<string> {
    [UserKey] + (if reg(UserKey).returncode != 0 then [MachineKey] else [])
  }

  /** The detected Chrome version, or None when both queries fail or no line names a version. */
  function DetectedVersion(reg: string -> RegQuery): Option<ChromeVersion> {
    match RegistryOutput(reg)
    case None => None
    case Some(out) => ParseChromeVersion(out)
  }

  // ---------------------------------------------------------------------
  // Choosing a driver download
  // ---------------------------------------------------------------------

  /** An HTTP reply, or `Raised` when the request raised (timeout, connection error). */
  datatype HttpReply = Raised | Reply(status: int, text: string)

  /** One HTTP request: `requests.get` or `requests.head`. */
  datatype Request = Get(url: string) | Head(url: string)

  predicate Ok(reply: HttpReply) {
    reply.Reply? && reply.status == 200
  }

  function TestingApi(major: string): string {
    "https://googlechromelabs.github.io/chrome-for-testing/LATEST_RELEASE_" + major
  }

  /** The Chrome for Testing download for `version`. */
  function TestingZip(version: string): string {
    "https://edgedl.me.gvt1.com/edgedl/chrome/chrome-for-testing" + ("/" + version + "/") + "win32/chromedriver-win32.zip"
  }

  function StorageApi(major: string): string {
    "https://chromedriver.storage.googleapis.com/LATEST_RELEASE_" + major
  }

  /** The Google Storage download for `version`. */
  function StorageZip(version: string): string {
    "https://chromedriver.storage.googleapis.com" + ("/" + version + "/") + "chromedriver_win32.zip"
  }

  /** Both download URLs hold the version as a whole path segment `/<version>/`. */
  lemma ZipUrlsHoldVersion(version: string)
    ensures Contains(TestingZip(version), "/" + version + "/")
    ensures Contains(StorageZip(version), "/" + version + "/")
  {
    OccursInMiddle("https://edgedl.me.gvt1.com/edgedl/chrome/chrome-for-testing", "/" + version + "/", "win32/chromedriver-win32.zip");
    OccursInMiddle("https://chromedriver.storage.googleapis.com", "/" + version + "/", "chromedriver_win32.zip");
  }

  /** Different versions give different download URLs: a URL names one version. */
  lemma {:induction false} ZipUrlsNameOneVersion(a: string, b: string)
    ensures TestingZip(a) == TestingZip(b) ==> a == b
    ensures StorageZip(a) == StorageZip(b) ==> a == b
  {
    if TestingZip(a) == TestingZip(b) {
      MiddleDetermined("https://edgedl.me.gvt1.com/edgedl/chrome/chrome-for-testing", "/" + a + "/", "/" + b + "/", "win32/chromedriver-win32.zip");
      MiddleDetermined("/", a, b, "/");
    }
    if StorageZip(a) == StorageZip(b) {
      MiddleDetermined("https://chromedriver.storage.googleapis.com", "/" + a + "/", "/" + b + "/", "chromedriver_win32.zip");
      MiddleDetermined("/", a, b, "/");
    }
  }

  /** The driver versions guessed when both release APIs fail, in probing order. */
  function TestVersions(major: string): seq<string> {
    [major + ".0.0.0", major + ".0.6778.85", major + ".0.6998.165"]
  }

  function ProbeUrls(major: string): (urls: seq<string>)
    ensures |urls| == 3
    ensures forall i :: 0 <= i < 3 ==> urls[i] == StorageZip(TestVersions(major)[i])
  {
    var tv := TestVersions(major);
    [StorageZip(tv[0]), StorageZip(tv[1]), StorageZip(tv[2])]
  }

  function Heads(urls: seq<string>): (r: seq<Request>)
    ensures |r| == |urls| && forall i :: 0 <= i < |urls| ==> r[i] == Head(urls[i])
  {
    seq(|urls|, i requires 0 <= i < |urls| => Head(urls[i]))
  }

  /** The index of the first probe answered with 200, or `|urls|` when none is. */
  function FirstHit(head: string -> HttpReply, urls: seq<string>): (k: nat)
    ensures k <= |urls|
    ensures forall i :: 0 <= i < k ==> !Ok(head(urls[i]))
    ensures k < |urls| ==> Ok(head(urls[k]))
    decreases |urls|
  {
    if urls == [] || Ok(head(urls[0])) then 0
    else
      var k := FirstHit(head, urls[1..]);
      assert forall i :: 1 <= i < k + 1 ==> urls[i] == urls[1..][i - 1];
      k + 1
  }

  /** The driver version chosen and where to download it from. */
  datatype Download = Download(version: string, url: string)

  /** The download chosen, with the requests made to choose it, in order. */
  datatype Choice = Choice(download: Download, requests: seq<Request>)

  /**
   * The fallback chain: the Chrome for Testing release API, then the old
   * storage release API, then HEAD probes of three guessed versions, then the
   * major version itself. Each step runs only when the ones before it found
   * nothing.
   */
  function DownloadChoice(major: string, get: string -> HttpReply, head: string -> HttpReply): Choice {
    var testing := get(TestingApi(major));
    if Ok(testing) then
      var v := Strip(testing.text);
      Choice(Download(v, TestingZip(v)), [Get(TestingApi(major))])
    else
      var storage := get(StorageApi(major));
      var asked := [Get(TestingApi(major)), Get(StorageApi(major))];
      if Ok(storage) then
        var v := Strip(storage.text);
        Choice(Download(v, StorageZip(v)), asked)
      else
        var urls := ProbeUrls(major);
        var k := FirstHit(head, urls);
        if k < 3 then Choice(Download(TestVersions(major)[k], urls[k]), asked + Heads(urls[..k + 1]))
        else Choice(Download(major, StorageZip(major)), asked + Heads(urls))
  }

  /**
   * Approach 3 of the chain: HEAD-probes the guessed versions in order and
   * stops at the first 200.
   */
  method ProbeTestVersions(major: string, head: string -> HttpReply) returns (found: Option<Download>, probes: seq<Request>)
    ensures var urls := ProbeUrls(major); var k := FirstHit(head, urls);
      && (k < 3 ==> found == Some(Download(TestVersions(major)[k], urls[k])) && probes == Heads(urls[..k + 1]))
      && (k == 3 ==> found == None && probes == Heads(urls))
  {
    var testVersions := TestVersions(major);
    ghost var urls := ProbeUrls(major);
    probes := [];
    var i := 0;
    while i < |testVersions|
      invariant 0 <= i <= |testVersions|
      invariant probes == Heads(urls[..i])
      invariant forall j :: 0 <= j < i ==> !Ok(head(urls[j]))
    {
      var testUrl := StorageZip(testVersions[i]);
      assert testUrl == urls[i];
      assert urls[..i + 1] == urls[..i] + [urls[i]];
      var response := head(testUrl);
      probes := probes + [Head(testUrl)];
      if Ok(response) {
        return Some(Download(testVersions[i], testUrl)), probes;
      }
      i := i + 1;
    }
    assert urls[..i] == urls;
    found := None;
  }

  /**
   * The URL chain of `_download_specific_chromedriver`: each approach runs
   * only while no download URL is set.
   */
  method ResolveDownload(major: string, get: string -> HttpReply, head: string -> HttpReply)
    returns (download: Download, requests: seq<Request>)
    ensures Choice(download, requests) == DownloadChoice(major, get, head)
  {
    ghost var choice := DownloadChoice(major, get, head);
    var downloadUrl: Option<string> := None;
    var driverVersion: Option<string> := None;

    var apiUrl := TestingApi(major);
    var response := get(apiUrl);
    requests := [Get(apiUrl)];
    if Ok(response) {
      var version := Strip(response.text);
      driverVersion := Some(version);
      downloadUrl := Some(TestingZip(version));
      assert choice == Choice(Download(version, TestingZip(version)), requests);
    }
    assert Present(downloadUrl) <==> downloadUrl.Some?;

    if !Present(downloadUrl) {
      var chromedriverUrl := StorageApi(major);
      response := get(chromedriverUrl);
      requests := requests + [Get(chromedriverUrl)];
      if Ok(response) {
        var version := Strip(response.text);
        driverVersion := Some(version);
        downloadUrl := Some(StorageZip(version));
        assert choice == Choice(Download(version, StorageZip(version)), requests);
      }
    }
    assert Present(downloadUrl) <==> downloadUrl.Some?;

    if !Present(downloadUrl) {
      var found, probes := ProbeTestVersions(major, head);
      requests := requests + probes;
      if found.Some? {
        driverVersion := Some(found.value.version);
        downloadUrl := Some(found.value.url);
      }
    }
    assert Present(downloadUrl) <==> downloadUrl.Some?;

    if !Present(downloadUrl) {
      driverVersion := Some(major);
      downloadUrl := Some(StorageZip(major));
    }
    download := Download(driverVersion.value, downloadUrl.value);
  }

  /** The chain always ends with a download URL; when every request fails the version is the major version. */
  lemma ChainAlwaysChooses(major: string, get: string -> HttpReply, head: string -> HttpReply)
    ensures DownloadChoice(major, get, head).download.url != ""
    ensures (!Ok(get(TestingApi(major))) && !Ok(get(StorageApi(major)))
        && forall i :: 0 <= i < 3 ==> !Ok(head(ProbeUrls(major)[i])))
      ==> DownloadChoice(major, get, head).download == Download(major, StorageZip(major))
  {
    if !Ok(get(TestingApi(major))) && !Ok(get(StorageApi(major))) && forall i :: 0 <= i < 3 ==> !Ok(head(ProbeUrls(major)[i])) {
      var k := FirstHit(head, ProbeUrls(major));
      assert k == 3;
    }
  }

  /** The chain stops at the first approach that answers: a 200 from an API leaves the later approaches unasked. */
  lemma ChainStopsAtFirstAnswer(major: string, get: string -> HttpReply, head: string -> HttpReply)
    ensures Ok(get(TestingApi(major))) ==> DownloadChoice(major, get, head).requests == [Get(TestingApi(major))]
    ensures !Ok(get(TestingApi(major))) && Ok(get(StorageApi(major))) ==>
      DownloadChoice(major, get, head).requests == [Get(TestingApi(major)), Get(StorageApi(major))]
  {
  }

  /** A HEAD probe is made only when both release APIs failed: after a 200 from either, every request is a GET. */
  lemma ProbesOnlyAfterBothApisFail(major: string, get: string -> HttpReply, head: string -> HttpReply)
    ensures Ok(get(TestingApi(major))) || Ok(get(StorageApi(major))) ==>
      var rs := DownloadChoice(major, get, head).requests;
      forall i :: 0 <= i < |rs| ==> rs[i].Get?
  {
    if Ok(get(TestingApi(major))) || Ok(get(StorageApi(major))) {
      ChainStopsAtFirstAnswer(major, get, head);
      OnlyGets(DownloadChoice(major, get, head).requests, TestingApi(major), StorageApi(major));
    }
  }

  lemma OnlyGets(rs: seq<Request>, a: string, b: string)
    requires rs == [Get(a)] || rs == [Get(a), Get(b)]
    ensures forall i :: 0 <= i < |rs| ==> rs[i].Get?
  {
  }

  /**
   * The guessed versions are probed in listed order, up to and including the
   * first one answered with 200, and that one is chosen.
   */
  lemma {:induction false} ProbesInOrder(major: string, get: string -> HttpReply, head: string -> HttpReply)
    requires !Ok(get(TestingApi(major))) && !Ok(get(StorageApi(major)))
    ensures var c := DownloadChoice(major, get, head);
      exists n :: 1 <= n <= 3
        && c.requests == [Get(TestingApi(major)), Get(StorageApi(major))] + Heads(ProbeUrls(major)[..n])
        && (forall i :: 0 <= i < n - 1 ==> !Ok(head(ProbeUrls(major)[i])))
        && (Ok(head(ProbeUrls(major)[n - 1])) ==> c.download == Download(TestVersions(major)[n - 1], ProbeUrls(major)[n - 1]))
        && (!Ok(head(ProbeUrls(major)[n - 1])) ==> n == 3 && c.download == Download(major, StorageZip(major)))
  {
    var urls := ProbeUrls(major);
    var k := FirstHit(head, urls);
    var c := DownloadChoice(major, get, head);
    if k < 3 {
      assert c.requests == [Get(TestingApi(major)), Get(StorageApi(major))] + Heads(urls[..k + 1]);
      assert Ok(head(urls[k]));
    } else {
      assert urls[..3] == urls;
      assert c.requests == [Get(TestingApi(major)), Get(StorageApi(major))] + Heads(urls[..3]);
      assert !Ok(head(urls[2]));
    }
  }

  // ---------------------------------------------------------------------
  // Reusing a driver already on disk
  // ---------------------------------------------------------------------

  /** `os.path.join` on Windows for a relative second part. */
  function PathJoin(a: string, b: string): string {
    if a == "" || a[|a| - 1] == '\\' || a[|a| - 1] == '/' then a + b else a + "\\" + b
  }

  /** `~/.auto_mudfish/chromedriver/<version>/chromedriver.exe`. */
  function DriverExe(home: string, version: string): string {
    PathJoin(PathJoin(PathJoin(PathJoin(home, ".auto_mudfish"), "chromedriver"), version), "chromedriver.exe")
  }

  /** What `_download_specific_chromedriver` settles on before any download. */
  datatype Acquisition =
    | NoChromeVersion                  // both registry queries failed, or no version line
    | Reuse(exe: string)               // the driver for this version is already on disk
    | Fetch(url: string, exe: string)  // download from `url` and extract to `exe`

  /** The acquisition for a registry, the HTTP replies and the files on disk. */
  function AcquisitionFor(reg: string -> RegQuery, get: string -> HttpReply, head: string -> HttpReply,
                          fileExists: string -> bool, home: string): Acquisition
  {
    match DetectedVersion(reg)
    case None => NoChromeVersion
    case Some(chrome) =>
      var d := DownloadChoice(chrome.major, get, head).download;
      var exe := DriverExe(home, d.version);
      if fileExists(exe) then Reuse(exe) else Fetch(d.url, exe)
  }

  /**
   * `_download_specific_chromedriver` up to the download: detects the Chrome
   * version, resolves the download and reuses an existing driver. The
   * registry queries and HTTP requests made are returned in order.
   */
  method DownloadSpecificChromedriver(reg: string -> RegQuery, get: string -> HttpReply, head: string -> HttpReply,
                                      fileExists: string -> bool, home: string)
    returns (acquired: Acquisition, queried: seq<string>, requests: seq<Request>)
    ensures acquired == AcquisitionFor(reg, get, head, fileExists, home)
    ensures queried == RegistryQueries(reg)
    ensures requests == (if DetectedVersion(reg).None? then [] else DownloadChoice(DetectedVersion(reg).value.major, get, head).requests)
  {
    var result := reg(UserKey);
    queried := [UserKey];
    if result.returncode != 0 {
      result := reg(MachineKey);
      queried := queried + [MachineKey];
    }
    requests := [];
    if result.returncode != 0 {
      return NoChromeVersion, queried, requests;
    }
    var version := ParseChromeVersion(result.stdout);
    if version.None? {
      return NoChromeVersion, queried, requests;
    }
    var download;
    download, requests := ResolveDownload(version.value.major, get, head);
    var chromedriverExe := DriverExe(home, download.version);
    if fileExists(chromedriverExe) {
      return Reuse(chromedriverExe), queried, requests;
    }
    acquired := Fetch(download.url, chromedriverExe);
  }

  /** A driver already on disk is reused and nothing is downloaded; otherwise the chosen URL is fetched into the version directory. */
  lemma ExistingDriverReused(reg: string -> RegQuery, get: string -> HttpReply, head: string -> HttpReply,
                             fileExists: string -> bool, home: string)
    requires DetectedVersion(reg).Some?
    ensures var a := AcquisitionFor(reg, get, head, fileExists, home);
      var d := DownloadChoice(DetectedVersion(reg).value.major, get, head).download;
      && (fileExists(DriverExe(home, d.version)) <==> a.Reuse?)
      && (a.Reuse? ==> a.exe == DriverExe(home, d.version))
      && (a.Fetch? ==> a.url == d.url && a.url != "" && a.exe == DriverExe(home, d.version))
  {
    ChainAlwaysChooses(DetectedVersion(reg).value.major, get, head);
  }

  // ---------------------------------------------------------------------
  // Driver options and service
  // ---------------------------------------------------------------------

  /** `webdriver.ChromeOptions`: the command-line arguments Chrome is started with. */
  class ChromeOptions {
    var arguments: seq<string>

    constructor ()
      ensures arguments == []
    {
      arguments := [];
    }

    method AddArgument(argument: string)
      modifies this
      ensures arguments == old(arguments) + [argument]
    {
      arguments := arguments + [argument];
    }
  }

  /** `selenium.webdriver.chrome.service.Service`: a driver executable, or the one on the system path. */
  datatype Service = Service(executablePath: Option<string>)

  /** The flags headless mode adds, in order. */
  const HeadlessFlags: seq<string> := [
    "--headless=new",
    "--no-sandbox",
    "--disable-dev-shm-usage",
    "--disable-gpu",
    "--disable-web-security",
    "--disable-features=VizDisplayCompositor",
    "--window-size=1920,1080",
    "--disable-extensions",
    "--disable-plugins",
    "--disable-images"
  ]

  /** The service a driver starts with: a non-empty executable path wins, then the caller's service, then the default. */
  function ServiceFor(service: Option<Service>, executablePath: Option<string>): (s: Service)
    ensures Present(executablePath) ==> s.executablePath == executablePath
    ensures !Present(executablePath) && service.Some? ==> s == service.value
    ensures !Present(executablePath) && service.None? ==> s.executablePath == None
  {
    if Present(executablePath) then Service(executablePath)
    else if service.None? then Service(None)
    else service.value
  }

  /** The ten `add_argument` calls of headless mode, in order. */
  method AddHeadlessFlags(chromeOptions: ChromeOptions)
    modifies chromeOptions
    ensures chromeOptions.arguments == old(chromeOptions.arguments) + HeadlessFlags
  {
    ghost var a0 := chromeOptions.arguments;
    chromeOptions.AddArgument("--headless=new");
    chromeOptions.AddArgument("--no-sandbox");
    chromeOptions.AddArgument("--disable-dev-shm-usage");
    chromeOptions.AddArgument("--disable-gpu");
    chromeOptions.AddArgument("--disable-web-security");
    assert chromeOptions.arguments == a0 + HeadlessFlags[..5];
    chromeOptions.AddArgument("--disable-features=VizDisplayCompositor");
    chromeOptions.AddArgument("--window-size=1920,1080");
    chromeOptions.AddArgument("--disable-extensions");
    chromeOptions.AddArgument("--disable-plugins");
    chromeOptions.AddArgument("--disable-images");
    assert HeadlessFlags == HeadlessFlags[..5] + HeadlessFlags[5..];
  }

  /** A Chrome WebDriver as configured by `ChromeDriver.__init__`. */
  class ChromeDriver {
    var options: ChromeOptions?
    const service: Service
    const keepAlive: bool

    /**
     * With `headless`, the ten headless flags are appended in order to the
     * caller's options, or to fresh options when none were given; without
     * it the options pass through untouched, `null` included.
     */
    constructor (options: ChromeOptions?, service: Option<Service>, keepAlive: bool, headless: bool, executablePath: Option<string>)
      modifies options
      ensures !headless ==> this.options == options
      ensures !headless && options != null ==> options.arguments == old(options.arguments)
      ensures headless && options != null ==> this.options == options && options.arguments == old(options.arguments) + HeadlessFlags
      ensures headless && options == null ==> this.options != null && fresh(this.options) && this.options.arguments == HeadlessFlags
      ensures this.service == ServiceFor(service, executablePath) && this.keepAlive == keepAlive
    {
      var chosen := options;
      if headless {
        var chromeOptions: ChromeOptions;
        if options != null {
          chromeOptions := options;
        } else {
          chromeOptions := new ChromeOptions();
        }
        AddHeadlessFlags(chromeOptions);
        chosen := chromeOptions;
      }
      this.options := chosen;
      this.service := ServiceFor(service, executablePath);
      this.keepAlive := keepAlive;
    }
  }

  /** Headless mode starts with the new headless flag, not the legacy `--headless`. */
  lemma HeadlessFlagsShape()
    ensures |HeadlessFlags| == 10 && HeadlessFlags[0] == "--headless=new"
    ensures "--headless" !in HeadlessFlags
  {
  }
}
