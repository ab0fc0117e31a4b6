/**
 * The snapshot files of `save_data`, `move_to_backup` and
 * `cleanup_backup_folder`.  A directory is a map from file name to file
 * (modification time and JSON content) together with the order in which
 * `os.listdir` returns its names.
 */
module Snapshots {
  import opened Wrappers
  import opened Strings
  import opened JsonData

  // ---------------------------------------------------------------- names

  /** A reading of the clock, to the minute. */
  datatype DateTime = DateTime(year: int, month: int, day: int, hour: int, minute: int)

  predicate ValidTime(t: DateTime) {
    1000 <= t.year <= 9999 && 1 <= t.month <= 12 && 1 <= t.day <= 31
    && 0 <= t.hour < 24 && 0 <= t.minute < 60
  }

  /** `strftime('%d-%m-%Y_%H-%M')`. */
  function TimeStamp(t: DateTime): (s: string)
    requires ValidTime(t)
    ensures |s| == 16
  {
    Pad2(t.day) + "-" + Pad2(t.month) + "-" + Pad4(t.year) + "_" + Pad2(t.hour) + "-" + Pad2(t.minute)
  }

  /** `f"raw-{key}-{time_stamp}.json"`. */
  function SnapshotName(key: string, t: DateTime): (name: string)
    requires ValidTime(t)
    ensures |name| == |key| + 26
  {
    "raw-" + key + "-" + TimeStamp(t) + ".json"
  }

  /** Reads a time stamp back; the partner of TimeStamp. */
  function ParseTimeStamp(s: string): Option<DateTime> {
    if |s| == 16 && AllDigits(s[0..2]) && s[2] == '-' && AllDigits(s[3..5]) && s[5] == '-'
       && AllDigits(s[6..10]) && s[10] == '_' && AllDigits(s[11..13]) && s[13] == '-' && AllDigits(s[14..16])
    then
      var t := DateTime(ParseNat(s[6..10]), ParseNat(s[3..5]), ParseNat(s[0..2]), ParseNat(s[11..13]), ParseNat(s[14..16]));
      if ValidTime(t) then Some(t) else None
    else None
  }

  /** Reads the resource key and the minute back from a snapshot name. */
  function ParseSnapshotName(name: string): Option<(string, DateTime)> {
    if |name| >= 26 && name[..4] == "raw-" && name[|name| - 5..] == ".json" && name[|name| - 22] == '-' then
      match ParseTimeStamp(name[|name| - 21..|name| - 5])
      case Some(t) => Some((name[4..|name| - 22], t))
      case None => None
    else None
  }

  lemma TimeStampRoundTrip(t: DateTime)
    requires ValidTime(t)
    ensures ParseTimeStamp(TimeStamp(t)) == Some(t)
  {
    var s := TimeStamp(t);
    assert s[0..2] == Pad2(t.day) && s[3..5] == Pad2(t.month) && s[6..10] == Pad4(t.year);
    assert s[11..13] == Pad2(t.hour) && s[14..16] == Pad2(t.minute);
    ParsePad2(t.day);
    ParsePad2(t.month);
    ParsePad4(t.year);
    ParsePad2(t.hour);
    ParsePad2(t.minute);
  }

  /** The name gives back the key and the minute it was made from. */
  lemma SnapshotNameRoundTrip(key: string, t: DateTime)
    requires ValidTime(t)
    ensures ParseSnapshotName(SnapshotName(key, t)) == Some((key, t))
  {
    var name := SnapshotName(key, t);
    assert name[..4] == "raw-";
    assert name[|name| - 5..] == ".json";
    assert name[4..|name| - 22] == key;
    assert name[|name| - 21..|name| - 5] == TimeStamp(t);
    TimeStampRoundTrip(t);
  }

  /**
   * Two snapshots of one resource get the same name exactly when they are
   * written in the same minute: the later write replaces the earlier file.
   */
  lemma SameNameIffSameMinute(key: string, t1: DateTime, t2: DateTime)
    requires ValidTime(t1) && ValidTime(t2)
    ensures SnapshotName(key, t1) == SnapshotName(key, t2) <==> t1 == t2
  {
    SnapshotNameRoundTrip(key, t1);
    SnapshotNameRoundTrip(key, t2);
  }

  predicate IsJson(name: string) {
    EndsWith(name, ".json")
  }

  lemma SnapshotNameIsJson(key: string, t: DateTime)
    requires ValidTime(t)
    ensures IsJson(SnapshotName(key, t))
  {
    var name := SnapshotName(key, t);
    assert name[|name| - 5..] == ".json";
  }

  // ---------------------------------------------------------------- sequences of names

  /** No name occurs twice. */
  ghost predicate Distinct(s: seq<string>) {
    forall i, j :: 0 <= i < j < |s| ==> s[i] != s[j]
  }

  function Elems(s: seq<string>): set<string> {
    set x | x in s
  }

  lemma DistinctCons(x: string, s: seq<string>)
    requires Distinct(s) && x !in s
    ensures Distinct([x] + s)
  {
    var r := [x] + s;
    forall i, j | 0 <= i < j < |r| ensures r[i] != r[j] {
      assert r[j] == s[j - 1];
      if i > 0 {
        assert r[i] == s[i - 1];
      }
    }
  }

  lemma DistinctSnoc(s: seq<string>, x: string)
    requires Distinct(s) && x !in s
    ensures Distinct(s + [x])
  {
    var r := s + [x];
    forall i, j | 0 <= i < j < |r| ensures r[i] != r[j] {
      assert r[i] == s[i];
    }
  }

  /** The name at position j is not among the names before it. */
  lemma DistinctAt(s: seq<string>, j: nat)
    requires Distinct(s) && j < |s|
    ensures s[j] !in s[..j]
    ensures Distinct(s[..j]) && Distinct(s[..j + 1])
  {
    forall k | 0 <= k < j ensures s[..j][k] != s[j] {
      assert s[..j][k] == s[k];
    }
  }

  lemma {:induction false} DistinctCard(s: seq<string>)
    requires Distinct(s)
    ensures |Elems(s)| == |s|
    decreases |s|
  {
    if s != [] {
      var init, last := s[..|s| - 1], s[|s| - 1];
      DistinctAt(s, |s| - 1);
      assert s == init + [last];
      assert Elems(s) == Elems(init) + {last};
      DistinctCard(init);
    }
  }

  /** The names in a listing that end in ".json", in listing order. */
  function JsonNames(names: seq<string>): (r: seq<string>)
    ensures forall x :: x in r <==> x in names && IsJson(x)
    ensures |r| <= |names|
    decreases |names|
  {
    if names == [] then []
    else
      var init, last := names[..|names| - 1], names[|names| - 1];
      assert names == init + [last];
      JsonNames(init) + (if IsJson(last) then [last] else [])
  }

  lemma {:induction false} JsonNamesDistinct(names: seq<string>)
    requires Distinct(names)
    ensures Distinct(JsonNames(names))
    decreases |names|
  {
    if names != [] {
      var init, last := names[..|names| - 1], names[|names| - 1];
      DistinctAt(names, |names| - 1);
      JsonNamesDistinct(init);
      if IsJson(last) {
        DistinctSnoc(JsonNames(init), last);
      } else {
        assert JsonNames(names) == JsonNames(init);
      }
    }
  }

  /** The listing with one name removed. */
  function Without(s: seq<string>, name: string): (r: seq<string>)
    ensures forall x :: x in r <==> x in s && x != name
  {
    if s == [] then []
    else
      assert s == [s[0]] + s[1..];
      (if s[0] == name then [] else [s[0]]) + Without(s[1..], name)
  }

  lemma {:induction false} WithoutDistinct(s: seq<string>, name: string)
    requires Distinct(s)
    ensures Distinct(Without(s, name))
  {
    if s != [] {
      assert Distinct(s[1..]) by {
        forall i, j | 0 <= i < j < |s[1..]| ensures s[1..][i] != s[1..][j] {
          assert s[1..][i] == s[i + 1] && s[1..][j] == s[j + 1];
        }
      }
      WithoutDistinct(s[1..], name);
      if s[0] != name {
        assert s[0] !in s[1..] by {
          forall k | 0 <= k < |s[1..]| ensures s[1..][k] != s[0] {
            assert s[1..][k] == s[k + 1];
          }
        }
        DistinctCons(s[0], Without(s[1..], name));
      }
    }
  }

  // ---------------------------------------------------------------- directories

  datatype File = File(mtime: int, content: Json)

  /** A directory: its files, and the order in which `os.listdir` lists their names. */
  datatype Dir = Dir(names: seq<string>, files: map<string, File>)

  const EmptyDir := Dir([], map[])

  /** Each file is listed, exactly once. */
  ghost predicate ValidDir(d: Dir) {
    Distinct(d.names) && forall n :: n in d.names <==> n in d.files
  }

  /** Every directory of a tree is valid. */
  ghost predicate ValidDirs(m: map<string, Dir>) {
    forall k :: k in m ==> ValidDir(m[k])
  }

  /** The ".json" files of a directory. */
  function JsonSet(d: Dir): set<string> {
    set n | n in d.files && IsJson(n)
  }

  /** Creates or overwrites a file; a new name is listed after the existing ones. */
  function Put(d: Dir, name: string, f: File): (r: Dir)
    ensures r.files == d.files[name := f]
    ensures ValidDir(d) ==> ValidDir(r)
  {
    if name in d.files then Dir(d.names, d.files[name := f])
    else
      assert ValidDir(d) ==> Distinct(d.names + [name]) by {
        if ValidDir(d) { DistinctSnoc(d.names, name); }
      }
      Dir(d.names + [name], d.files[name := f])
  }

  /** Removes a file (`os.remove`, or the source side of `os.rename`). */
  function Delete(d: Dir, name: string): (r: Dir)
    ensures r.files == d.files - {name}
    ensures ValidDir(d) ==> ValidDir(r)
  {
    assert ValidDir(d) ==> Distinct(Without(d.names, name)) by {
      if ValidDir(d) { WithoutDistinct(d.names, name); }
    }
    Dir(Without(d.names, name), d.files - {name})
  }

  function Mtime(d: Dir, name: string): int {
    if name in d.files then d.files[name].mtime else 0
  }

  // ---------------------------------------------------------------- sorting by mtime

  ghost predicate ByMtime(s: seq<string>, d: Dir) {
    forall i, j :: 0 <= i < j < |s| ==> Mtime(d, s[i]) <= Mtime(d, s[j])
  }

  /** Inserts x before the first name that is not older; on a tie x goes first. */
  function InsertByMtime(x: string, s: seq<string>, d: Dir): (r: seq<string>)
    ensures |r| == |s| + 1
  {
    if s == [] || Mtime(d, x) <= Mtime(d, s[0]) then [x] + s
    else [s[0]] + InsertByMtime(x, s[1..], d)
  }

  /** Insertion adds x and keeps every other name. */
  lemma {:induction false} InsertByMtimePerm(x: string, s: seq<string>, d: Dir)
    ensures multiset(InsertByMtime(x, s, d)) == multiset(s) + multiset{x}
    ensures forall y :: y in InsertByMtime(x, s, d) <==> y == x || y in s
  {
    if s != [] && Mtime(d, x) > Mtime(d, s[0]) {
      assert s == [s[0]] + s[1..];
      InsertByMtimePerm(x, s[1..], d);
    }
  }

  lemma {:induction false} InsertByMtimeSorted(x: string, s: seq<string>, d: Dir)
    requires ByMtime(s, d)
    ensures ByMtime(InsertByMtime(x, s, d), d)
  {
    var r := InsertByMtime(x, s, d);
    if s == [] || Mtime(d, x) <= Mtime(d, s[0]) {
      forall i, j | 0 <= i < j < |r| ensures Mtime(d, r[i]) <= Mtime(d, r[j]) {
        if i > 0 {
          assert r[i] == s[i - 1] && r[j] == s[j - 1];
        } else {
          assert r[j] == s[j - 1];
        }
      }
    } else {
      var rest := InsertByMtime(x, s[1..], d);
      assert ByMtime(s[1..], d) by {
        forall i, j | 0 <= i < j < |s[1..]| ensures Mtime(d, s[1..][i]) <= Mtime(d, s[1..][j]) {
          assert s[1..][i] == s[i + 1] && s[1..][j] == s[j + 1];
        }
      }
      InsertByMtimeSorted(x, s[1..], d);
      InsertByMtimePerm(x, s[1..], d);
      forall j | 0 <= j < |rest| ensures Mtime(d, s[0]) <= Mtime(d, rest[j]) {
        var y := rest[j];
        if y != x {
          assert y in s[1..];
          var k :| 0 <= k < |s[1..]| && s[1..][k] == y;
          assert s[k + 1] == y;
        }
      }
      forall i, j | 0 <= i < j < |r| ensures Mtime(d, r[i]) <= Mtime(d, r[j]) {
        if i > 0 {
          assert r[i] == rest[i - 1] && r[j] == rest[j - 1];
        } else {
          assert r[j] == rest[j - 1];
        }
      }
    }
  }

  lemma {:induction false} InsertByMtimeDistinct(x: string, s: seq<string>, d: Dir)
    requires Distinct(s) && x !in s
    ensures Distinct(InsertByMtime(x, s, d))
  {
    if s == [] || Mtime(d, x) <= Mtime(d, s[0]) {
      DistinctCons(x, s);
    } else {
      assert Distinct(s[1..]) by {
        forall i, j | 0 <= i < j < |s[1..]| ensures s[1..][i] != s[1..][j] {
          assert s[1..][i] == s[i + 1] && s[1..][j] == s[j + 1];
        }
      }
      assert s[0] !in s[1..] by {
        forall k | 0 <= k < |s[1..]| ensures s[1..][k] != s[0] {
          assert s[1..][k] == s[k + 1];
        }
      }
      InsertByMtimeDistinct(x, s[1..], d);
      InsertByMtimePerm(x, s[1..], d);
      DistinctCons(s[0], InsertByMtime(x, s[1..], d));
    }
  }

  /** `files.sort(key=getmtime)`: a stable sort, oldest first, and a permutation. */
  function SortByMtime(s: seq<string>, d: Dir): (r: seq<string>)
    ensures |r| == |s|
  {
    if s == [] then []
    else InsertByMtime(s[0], SortByMtime(s[1..], d), d)
  }

  /** The sort is a permutation and its result is ordered by mtime. */
  lemma {:induction false} SortByMtimeFacts(s: seq<string>, d: Dir)
    ensures multiset(SortByMtime(s, d)) == multiset(s)
    ensures forall y :: y in SortByMtime(s, d) <==> y in s
    ensures ByMtime(SortByMtime(s, d), d)
  {
    if s != [] {
      assert s == [s[0]] + s[1..];
      var sorted := SortByMtime(s[1..], d);
      SortByMtimeFacts(s[1..], d);
      InsertByMtimePerm(s[0], sorted, d);
      InsertByMtimeSorted(s[0], sorted, d);
    }
  }

  lemma {:induction false} SortByMtimeDistinct(s: seq<string>, d: Dir)
    requires Distinct(s)
    ensures Distinct(SortByMtime(s, d))
  {
    if s != [] {
      assert Distinct(s[1..]) by {
        forall i, j | 0 <= i < j < |s[1..]| ensures s[1..][i] != s[1..][j] {
          assert s[1..][i] == s[i + 1] && s[1..][j] == s[j + 1];
        }
      }
      assert s[0] !in s[1..] by {
        forall k | 0 <= k < |s[1..]| ensures s[1..][k] != s[0] {
          assert s[1..][k] == s[k + 1];
        }
      }
      SortByMtimeDistinct(s[1..], d);
      SortByMtimeFacts(s[1..], d);
      InsertByMtimeDistinct(s[0], SortByMtime(s[1..], d), d);
    }
  }

  /** The ".json" files of a directory, oldest first, as both functions of the source list them. */
  function JsonByAge(d: Dir): seq<string> {
    SortByMtime(JsonNames(d.names), d)
  }

  lemma JsonByAgeFacts(d: Dir)
    requires ValidDir(d)
    ensures Distinct(JsonByAge(d))
    ensures forall n :: n in JsonByAge(d) <==> n in JsonSet(d)
    ensures |JsonByAge(d)| == |JsonSet(d)|
    ensures ByMtime(JsonByAge(d), d)
  {
    var js := JsonNames(d.names);
    JsonNamesDistinct(d.names);
    SortByMtimeDistinct(js, d);
    SortByMtimeFacts(js, d);
    DistinctCard(JsonByAge(d));
    assert Elems(JsonByAge(d)) == JsonSet(d);
  }

  // ---------------------------------------------------------------- moving and removing

  /** `os.rename` of each name in turn from the live directory to the backup directory. */
  function MoveAll(live: Dir, backup: Dir, names: seq<string>): (r: (Dir, Dir))
    requires Distinct(names) && forall n :: n in names ==> n in live.files
    ensures r.0.files == live.files - Elems(names)
    ensures ValidDir(live) && ValidDir(backup) ==> ValidDir(r.0) && ValidDir(r.1)
    decreases |names|
  {
    if names == [] then (live, backup)
    else
      var init, n := names[..|names| - 1], names[|names| - 1];
      DistinctAt(names, |names| - 1);
      assert names == init + [n];
      var moved := MoveAll(live, backup, init);
      assert Elems(names) == Elems(init) + {n};
      (Delete(moved.0, n), Put(moved.1, n, moved.0.files[n]))
  }

  /** What the backup directory holds after the renames. */
  lemma {:induction false} MoveAllBackup(live: Dir, backup: Dir, names: seq<string>)
    requires Distinct(names) && forall n :: n in names ==> n in live.files
    ensures var b := MoveAll(live, backup, names).1;
            && (forall n :: n in b.files <==> n in backup.files || n in names)
            && (forall n :: n in names ==> b.files[n] == live.files[n])
            && (forall n :: n in backup.files && n !in names ==> b.files[n] == backup.files[n])
    decreases |names|
  {
    if names != [] {
      var init := names[..|names| - 1];
      DistinctAt(names, |names| - 1);
      assert names == init + [names[|names| - 1]];
      MoveAllBackup(live, backup, init);
    }
  }

  /** Moving one more name is one more rename. */
  lemma MoveAllSnoc(live: Dir, backup: Dir, names: seq<string>, j: nat)
    requires Distinct(names) && forall n :: n in names ==> n in live.files
    requires j < |names|
    ensures Distinct(names[..j]) && Distinct(names[..j + 1])
    ensures var moved := MoveAll(live, backup, names[..j]);
            && names[j] in moved.0.files
            && MoveAll(live, backup, names[..j + 1])
               == (Delete(moved.0, names[j]), Put(moved.1, names[j], moved.0.files[names[j]]))
  {
    DistinctAt(names, j);
    assert names[..j + 1][..j] == names[..j];
  }

  /** `os.remove` of each name in turn. */
  function DeleteAll(d: Dir, names: seq<string>): (r: Dir)
    ensures r.files == d.files - Elems(names)
    ensures ValidDir(d) ==> ValidDir(r)
    decreases |names|
  {
    if names == [] then d
    else
      var n := names[|names| - 1];
      assert Elems(names) == Elems(names[..|names| - 1]) + {n} by {
        assert names == names[..|names| - 1] + [n];
      }
      Delete(DeleteAll(d, names[..|names| - 1]), n)
  }

  /** The newest live ".json" file: the last after sorting by mtime. */
  function Newest(live: Dir): string
    requires JsonByAge(live) != []
  {
    JsonByAge(live)[|JsonByAge(live)| - 1]
  }

  /** The live ".json" files that `move_to_backup` moves: all but the newest, when there are two or more. */
  function Superseded(live: Dir): (r: seq<string>)
    requires ValidDir(live)
    ensures Distinct(r) && forall n :: n in r ==> n in JsonSet(live)
  {
    JsonByAgeFacts(live);
    var files := JsonByAge(live);
    if |files| > 1 then
      DistinctAt(files, |files| - 1);
      files[..|files| - 1]
    else []
  }

  /** The directories after the renames of `move_to_backup` (before its cleanup). */
  function MoveSpec(live: Dir, backup: Dir): (r: (Dir, Dir))
    requires ValidDir(live) && ValidDir(backup)
    ensures ValidDir(r.0) && ValidDir(r.1)
  {
    MoveAll(live, backup, Superseded(live))
  }

  const MaxBackups: nat := 40

  /** The ".json" backups that `cleanup_backup_folder` removes: all but the 40 newest. */
  function Expired(backup: Dir): seq<string> {
    var files := JsonByAge(backup);
    if |files| > MaxBackups then files[..|files| - MaxBackups] else []
  }

  /** The backup directory after `cleanup_backup_folder`. */
  function CleanupSpec(backup: Dir): (r: Dir)
    ensures ValidDir(backup) ==> ValidDir(r)
  {
    DeleteAll(backup, Expired(backup))
  }

  // ---------------------------------------------------------------- properties

  /** Newest names a live ".json" file and no ".json" file has a later mtime. */
  lemma NewestIsLatest(live: Dir)
    requires ValidDir(live) && JsonSet(live) != {}
    ensures JsonByAge(live) != []
    ensures Newest(live) in JsonSet(live)
    ensures forall n :: n in JsonSet(live) ==> Mtime(live, n) <= Mtime(live, Newest(live))
  {
    JsonByAgeFacts(live);
    var files := JsonByAge(live);
    assert |files| > 0;
    forall n | n in JsonSet(live) ensures Mtime(live, n) <= Mtime(live, Newest(live)) {
      var k :| 0 <= k < |files| && files[k] == n;
    }
  }

  /** A live ".json" file other than the newest is among the moved ones. */
  lemma SupersededIsAllButNewest(live: Dir)
    requires ValidDir(live) && |JsonSet(live)| > 1
    ensures JsonByAge(live) != []
    ensures forall n :: n in Superseded(live) <==> n in JsonSet(live) && n != Newest(live)
  {
    JsonByAgeFacts(live);
    var files := JsonByAge(live);
    DistinctAt(files, |files| - 1);
    assert files == Superseded(live) + [Newest(live)];
  }

  /**
   * With two or more ".json" files in the live directory, exactly the newest
   * stays there, unchanged, and every other one is in the backup directory
   * under the same name with the same content and mtime.
   */
  lemma MoveKeepsOnlyNewest(live: Dir, backup: Dir)
    requires ValidDir(live) && ValidDir(backup) && |JsonSet(live)| > 1
    ensures JsonByAge(live) != []
    ensures var newest := Newest(live);
            var moved := MoveSpec(live, backup);
            && JsonSet(moved.0) == {newest}
            && moved.0.files[newest] == live.files[newest]
            && (forall n :: n in JsonSet(live) && n != newest ==> n in moved.1.files && moved.1.files[n] == live.files[n])
  {
    SupersededIsAllButNewest(live);
    NewestIsLatest(live);
    MoveAllBackup(live, backup, Superseded(live));
    var moved := MoveSpec(live, backup);
    assert JsonSet(moved.0) == {Newest(live)};
  }

  /** With zero or one ".json" file in the live directory, nothing moves. */
  lemma MoveNothingWhenFew(live: Dir, backup: Dir)
    requires ValidDir(live) && ValidDir(backup) && |JsonSet(live)| <= 1
    ensures MoveSpec(live, backup) == (live, backup)
  {
    JsonByAgeFacts(live);
  }

  /**
   * The move loses no file: a live file is afterwards either still live or in
   * the backup directory, with the same content; a backup file stays, and
   * changes only when a live file of the same name replaces it; files whose
   * names do not end in ".json" are not touched.
   */
  lemma MoveLosesNothing(live: Dir, backup: Dir)
    requires ValidDir(live) && ValidDir(backup)
    ensures var (l, b) := MoveSpec(live, backup);
            && (forall n :: n in live.files ==>
                  (n in l.files && l.files[n] == live.files[n]) || (n in b.files && b.files[n] == live.files[n]))
            && (forall n :: n in backup.files ==> n in b.files)
            && (forall n :: n in backup.files && n !in live.files ==> b.files[n] == backup.files[n])
            && (forall n :: n in l.files ==> n in live.files)
            && (forall n :: !IsJson(n) ==> (n in l.files <==> n in live.files) && (n in b.files <==> n in backup.files))
            && (forall n :: !IsJson(n) && n in b.files ==> b.files[n] == backup.files[n])
  {
    MoveAllBackup(live, backup, Superseded(live));
  }

  /** With 40 or fewer ".json" backups, cleanup changes nothing. */
  lemma CleanupNothingWhenFew(backup: Dir)
    requires ValidDir(backup) && |JsonSet(backup)| <= MaxBackups
    ensures CleanupSpec(backup) == backup
  {
    JsonByAgeFacts(backup);
  }

  /** The expired backups are the oldest ones, in the order of JsonByAge. */
  lemma ExpiredIsPrefix(backup: Dir)
    requires ValidDir(backup) && |JsonSet(backup)| > MaxBackups
    ensures |JsonByAge(backup)| > MaxBackups
    ensures Expired(backup) == JsonByAge(backup)[..|JsonByAge(backup)| - MaxBackups]
    ensures CleanupSpec(backup).files == backup.files - Elems(Expired(backup))
  {
    JsonByAgeFacts(backup);
  }

  /** Cleanup keeps what it does not remove as it was, and removes only ".json" files. */
  lemma CleanupRemovesOnlyJson(backup: Dir)
    requires ValidDir(backup)
    ensures var r := CleanupSpec(backup);
            && (forall n :: n in r.files ==> n in backup.files && r.files[n] == backup.files[n])
            && (forall n :: !IsJson(n) ==> (n in r.files <==> n in backup.files))
  {
    ExpiredAreJson(backup);
    RemovingOnlyJson(backup, CleanupSpec(backup), Expired(backup));
  }

  /** Cleanup removes only ".json" files of the directory. */
  lemma ExpiredAreJson(backup: Dir)
    requires ValidDir(backup)
    ensures forall n :: n in Expired(backup) ==> n in JsonSet(backup) && IsJson(n)
  {
    JsonByAgeFacts(backup);
    var files := JsonByAge(backup);
    if |files| > MaxBackups {
      forall n | n in Expired(backup) ensures n in JsonSet(backup) {
        assert n in files[..|files| - MaxBackups];
        assert n in files;
      }
    }
  }

  /** Removing only ".json" names keeps every other file, and what remains unchanged. */
  lemma RemovingOnlyJson(d: Dir, r: Dir, gone: seq<string>)
    requires forall n :: n in gone ==> IsJson(n)
    requires r.files == d.files - Elems(gone)
    ensures forall n :: n in r.files ==> n in d.files && r.files[n] == d.files[n]
    ensures forall n :: !IsJson(n) ==> (n in r.files <==> n in d.files)
  {
  }


  /** In a sequence sorted by mtime, a name before a cut is not newer than a name after it. */
  lemma PrefixNotNewer(files: seq<string>, d: Dir, cut: nat, early: string, late: string)
    requires ByMtime(files, d) && cut <= |files|
    requires early in files[..cut] && late in files && late !in files[..cut]
    ensures Mtime(d, early) <= Mtime(d, late)
  {
    var i :| 0 <= i < cut && files[..cut][i] == early;
    var j :| 0 <= j < |files| && files[j] == late;
  }

  /** No backup that cleanup removes is newer than one it keeps. */
  lemma CleanupRemovesOldest(backup: Dir, gone: string, kept: string)
    requires ValidDir(backup)
    requires gone in JsonSet(backup) && gone !in CleanupSpec(backup).files
    requires kept in JsonSet(CleanupSpec(backup))
    ensures Mtime(backup, gone) <= Mtime(backup, kept)
  {
    if |JsonSet(backup)| <= MaxBackups {
      CleanupNothingWhenFew(backup);
      assert false;
    } else {
      ExpiredIsPrefix(backup);
      JsonByAgeFacts(backup);
      var files := JsonByAge(backup);
      PrefixNotNewer(files, backup, |files| - MaxBackups, gone, kept);
    }
  }

  /** The part of a distinct sequence after a cut is distinct and shares no name with the part before. */
  lemma DistinctSplit(s: seq<string>, cut: nat)
    requires Distinct(s) && cut <= |s|
    ensures Distinct(s[cut..])
    ensures forall x :: x in s[cut..] ==> x !in s[..cut]
  {
    forall x | x in s[cut..] ensures x !in s[..cut] {
      var k :| cut <= k < |s| && s[k] == x;
    }
  }

  /**
   * Removing the names before a cut from a directory whose ".json" files are
   * exactly the names of a distinct sequence leaves the names after the cut.
   */
  lemma JsonSetAfterCut(d: Dir, r: Dir, files: seq<string>, cut: nat)
    requires Distinct(files) && cut <= |files|
    requires forall n :: n in files <==> n in JsonSet(d)
    requires r.files == d.files - Elems(files[..cut])
    ensures JsonSet(r) == Elems(files[cut..])
  {
    DistinctSplit(files, cut);
    forall n ensures n in JsonSet(r) <==> n in files[cut..] {
      assert n in files <==> n in files[..cut] || n in files[cut..] by {
        assert files == files[..cut] + files[cut..];
      }
    }
  }

  /** With more than 40 ".json" backups, the ones kept are the last 40 of JsonByAge. */
  lemma CleanupKeepsNewest(backup: Dir)
    requires ValidDir(backup) && |JsonSet(backup)| > MaxBackups
    ensures |JsonByAge(backup)| > MaxBackups && Distinct(JsonByAge(backup))
    ensures JsonSet(CleanupSpec(backup)) == Elems(JsonByAge(backup)[|JsonByAge(backup)| - MaxBackups..])
  {
    ExpiredIsPrefix(backup);
    JsonByAgeFacts(backup);
    JsonSetAfterCut(backup, CleanupSpec(backup), JsonByAge(backup), |JsonByAge(backup)| - MaxBackups);
  }

  /** A distinct sequence holds as many names after a cut as it has places there. */
  lemma DistinctSuffixCard(s: seq<string>, cut: nat)
    requires Distinct(s) && cut <= |s|
    ensures |Elems(s[cut..])| == |s| - cut
  {
    DistinctSplit(s, cut);
    DistinctCard(s[cut..]);
  }

  /** With more than 40 ".json" backups, exactly 40 remain. */
  lemma CleanupLeavesForty(backup: Dir)
    requires ValidDir(backup) && |JsonSet(backup)| > MaxBackups
    ensures |JsonSet(CleanupSpec(backup))| == MaxBackups
  {
    CleanupKeepsNewest(backup);
    DistinctSuffixCard(JsonByAge(backup), |JsonByAge(backup)| - MaxBackups);
  }

  /** Cleaning up twice is the same as cleaning up once. */
  lemma CleanupIdempotent(backup: Dir)
    requires ValidDir(backup)
    ensures CleanupSpec(CleanupSpec(backup)) == CleanupSpec(backup)
  {
    var r := CleanupSpec(backup);
    if |JsonSet(backup)| > MaxBackups {
      CleanupLeavesForty(backup);
    } else {
      CleanupNothingWhenFew(backup);
    }
    CleanupNothingWhenFew(r);
  }

  /** The listing that `move_to_backup` sorts gives the names Superseded names. */
  lemma SupersededOfListing(live: Dir, files: seq<string>)
    requires ValidDir(live) && files == SortByMtime(JsonNames(live.names), live) && |files| > 1
    ensures files[..|files| - 1] == Superseded(live)
    ensures Distinct(files[..|files| - 1]) && forall n :: n in files[..|files| - 1] ==> n in live.files
  {
  }

  /** With at most one ".json" name listed, MoveSpec moves nothing. */
  lemma NothingSupersededOfListing(live: Dir, backup: Dir, files: seq<string>)
    requires ValidDir(live) && ValidDir(backup) && files == JsonNames(live.names) && |files| <= 1
    ensures MoveSpec(live, backup) == (live, backup)
  {
  }

  /** Writing a key twice leaves only the second value. */
  lemma UpdateTwice(m: map<string, Dir>, k: string, v: Dir, w: Dir)
    ensures m[k := v][k := w] == m[k := w]
  {
  }

  // ---------------------------------------------------------------- the directories, in place

  /**
   * The `data` and `backup` directory trees: one live and one backup
   * sub-directory per resource key.
   */
  class FileSystem {
    var data: map<string, Dir>
    var backup: map<string, Dir>

    ghost predicate Valid()
      reads this
    {
      ValidDirs(data) && ValidDirs(backup)
    }

    constructor ()
      ensures Valid() && data == map[] && backup == map[]
    {
      data := map[];
      backup := map[];
    }

    /** `os.makedirs(..., exist_ok=True)` for both sub-directories of a key. */
    method MakeDirs(key: string)
      requires Valid()
      modifies this
      ensures Valid()
      ensures data == if key in old(data) then old(data) else old(data)[key := EmptyDir]
      ensures backup == if key in old(backup) then old(backup) else old(backup)[key := EmptyDir]
    {
      if key !in data {
        data := data[key := EmptyDir];
      }
      if key !in backup {
        backup := backup[key := EmptyDir];
      }
    }

    /** `json.dump` into a new (or the same-minute) file of a live directory. */
    method WriteSnapshot(key: string, name: string, file: File)
      requires Valid() && key in data
      modifies this
      ensures Valid()
      ensures data == old(data)[key := Put(old(data[key]), name, file)]
      ensures backup == old(backup)
    {
      data := data[key := Put(data[key], name, file)];
    }

    /** The loop that collects the ".json" names of a listing, in listing order. */
    static method ListJson(d: Dir) returns (files: seq<string>)
      ensures files == JsonNames(d.names)
    {
      files := [];
      var i := 0;
      while i < |d.names|
        invariant 0 <= i <= |d.names|
        invariant files == JsonNames(d.names[..i])
      {
        assert d.names[..i + 1][..i] == d.names[..i];
        if IsJson(d.names[i]) {
          files := files + [d.names[i]];
        }
        i := i + 1;
      }
      assert d.names[..i] == d.names;
    }

    /** The rename loop of `move_to_backup`: moves each name in turn to the backup directory. */
    method MoveEach(key: string, names: seq<string>)
      requires Valid() && key in data && key in backup
      requires Distinct(names) && forall n :: n in names ==> n in data[key].files
      modifies this
      ensures Valid()
      ensures data == old(data)[key := MoveAll(old(data[key]), old(backup[key]), names).0]
      ensures backup == old(backup)[key := MoveAll(old(data[key]), old(backup[key]), names).1]
    {
      var live, saved := data[key], backup[key];
      assert ValidDir(live) && ValidDir(saved);
      var l, b := live, saved;
      var j := 0;
      while j < |names|
        invariant 0 <= j <= |names|
        invariant Distinct(names[..j])
        invariant (l, b) == MoveAll(live, saved, names[..j])
        invariant data == old(data)[key := l] && backup == old(backup)[key := b]
      {
        var f := names[j];
        MoveAllSnoc(live, saved, names, j);
        // os.rename(source, destination)
        var file := l.files[f];
        UpdateTwice(old(data), key, l, Delete(l, f));
        UpdateTwice(old(backup), key, b, Put(b, f, file));
        l, b := Delete(l, f), Put(b, f, file);
        data, backup := data[key := l], backup[key := b];
        j := j + 1;
      }
      assert names[..j] == names;
      assert ValidDir(l) && ValidDir(b);
    }

    /** The removal loop of `cleanup_backup_folder`: removes each name in turn from the backup directory. */
    method RemoveEach(key: string, names: seq<string>)
      requires Valid() && key in backup
      modifies this
      ensures Valid()
      ensures data == old(data)
      ensures backup == old(backup)[key := DeleteAll(old(backup[key]), names)]
    {
      var saved := backup[key];
      var j := 0;
      while j < |names|
        invariant 0 <= j <= |names|
        invariant data == old(data)
        invariant backup == old(backup)[key := DeleteAll(saved, names[..j])]
      {
        assert names[..j + 1][..j] == names[..j];
        // os.remove(file_path)
        backup := backup[key := Delete(backup[key], names[j])];
        j := j + 1;
      }
      assert names[..j] == names;
      assert ValidDir(backup[key]);
    }

    /**
     * `move_to_backup`: moves every ".json" file but the newest from the live
     * directory to the backup directory, then runs `cleanup_backup_folder`.
     */
    method MoveToBackup(key: string)
      requires Valid() && key in data && key in backup
      modifies this
      ensures Valid()
      ensures data == old(data)[key := MoveSpec(old(data[key]), old(backup[key])).0]
      ensures backup == old(backup)[key := CleanupSpec(MoveSpec(old(data[key]), old(backup[key])).1)]
    {
      var files := ListJson(data[key]);
      if |files| > 1 {
        files := SortByMtime(files, data[key]);
        SupersededOfListing(data[key], files);
        MoveEach(key, files[..|files| - 1]);
      } else {
        NothingSupersededOfListing(data[key], backup[key], files);
      }
      ghost var moved := MoveSpec(old(data[key]), old(backup[key])).1;
      assert backup == old(backup)[key := moved];
      CleanupBackupFolder(key);
      UpdateTwice(old(backup), key, moved, CleanupSpec(moved));
    }

    /** `cleanup_backup_folder`: keeps only the 40 newest ".json" backups. */
    method CleanupBackupFolder(key: string)
      requires Valid() && key in backup
      modifies this
      ensures Valid()
      ensures data == old(data)
      ensures backup == old(backup)[key := CleanupSpec(old(backup[key]))]
    {
      var files := ListJson(backup[key]);
      if |files| > MaxBackups {
        files := SortByMtime(files, backup[key]);
        RemoveEach(key, files[..|files| - MaxBackups]);
      }
    }
  }
}
