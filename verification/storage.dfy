/**
 * `save_data`: one turn per endpoint (rockets, launches, starlink) creates
 * the two directories, and on HTTP 200 writes a new snapshot and runs
 * `move_to_backup`; afterwards `save_to_db` loads the live directories.
 */
module Storage {
  import opened JsonData
  import opened Models
  import opened Snapshots
  import opened Loader

  /** The keys of `endpoints`, in the order the loop visits them. */
  const Endpoints: seq<string> := ["rockets", "launches", "starlink"]

  /**
   * What one turn sees of the outside world: the API's payload and status
   * code, the clock, and the modification time the new file receives.
   */
  datatype Tick = Tick(payload: Json, status: int, now: DateTime, writtenAt: int)

  /** `os.makedirs(path, exist_ok=True)`: an existing directory is kept as it is, a missing one is created empty. */
  function MakeDir(m: map<string, Dir>, key: string): (r: map<string, Dir>)
    ensures key in r && r.Keys == m.Keys + {key}
    ensures forall k :: k in m ==> r[k] == m[k]
    ensures key !in m ==> r[key] == EmptyDir
    ensures ValidDirs(m) ==> ValidDirs(r)
  {
    if key in m then m else m[key := EmptyDir]
  }

  /** A valid directory put in place of another keeps the tree valid. */
  lemma ValidDirsUpdate(m: map<string, Dir>, key: string, d: Dir)
    requires ValidDirs(m) && ValidDir(d)
    ensures ValidDirs(m[key := d])
  {
  }

  /** The status-200 branch: write the snapshot, move the older ones, clean up the backups. */
  function Store(live: Dir, saved: Dir, key: string, tick: Tick): (r: (Dir, Dir))
    requires ValidDir(live) && ValidDir(saved) && ValidTime(tick.now)
    ensures ValidDir(r.0) && ValidDir(r.1)
  {
    var written := Put(live, SnapshotName(key, tick.now), File(tick.writtenAt, tick.payload));
    var moved := MoveSpec(written, saved);
    (moved.0, CleanupSpec(moved.1))
  }

  /** The directory trees after the turn of one endpoint. */
  function Turn(data: map<string, Dir>, backup: map<string, Dir>, key: string, tick: Tick): (r: (map<string, Dir>, map<string, Dir>))
    requires ValidDirs(data) && ValidDirs(backup) && ValidTime(tick.now)
    ensures ValidDirs(r.0) && ValidDirs(r.1)
  {
    var data1, backup1 := MakeDir(data, key), MakeDir(backup, key);
    if tick.status == 200 then
      var stored := Store(data1[key], backup1[key], key, tick);
      ValidDirsUpdate(data1, key, stored.0);
      ValidDirsUpdate(backup1, key, stored.1);
      (data1[key := stored.0], backup1[key := stored.1])
    else (data1, backup1)
  }

  lemma ReplaceKeepsOthers(m: map<string, Dir>, key: string, d: Dir)
    ensures var r := MakeDir(m, key)[key := d];
            && r.Keys == m.Keys + {key}
            && (forall k :: k in m && k != key ==> r[k] == m[k])
  {
  }

  /** A turn touches only its own endpoint's directories. */
  lemma TurnTouchesOnlyItsKey(data: map<string, Dir>, backup: map<string, Dir>, key: string, tick: Tick)
    requires ValidDirs(data) && ValidDirs(backup) && ValidTime(tick.now)
    ensures var r := Turn(data, backup, key, tick);
            && r.0.Keys == data.Keys + {key} && r.1.Keys == backup.Keys + {key}
            && (forall k :: k in data && k != key ==> r.0[k] == data[k])
            && (forall k :: k in backup && k != key ==> r.1[k] == backup[k])
  {
    var data1, backup1 := MakeDir(data, key), MakeDir(backup, key);
    if tick.status == 200 {
      var stored := Store(data1[key], backup1[key], key, tick);
      ReplaceKeepsOthers(data, key, stored.0);
      ReplaceKeepsOthers(backup, key, stored.1);
    }
  }

  /** The turns of the given endpoints, in order. */
  function Turns(data: map<string, Dir>, backup: map<string, Dir>, keys: seq<string>, ticks: seq<Tick>): (r: (map<string, Dir>, map<string, Dir>))
    requires ValidDirs(data) && ValidDirs(backup) && |keys| == |ticks|
    requires forall t :: t in ticks ==> ValidTime(t.now)
    ensures ValidDirs(r.0) && ValidDirs(r.1)
    decreases |keys|
  {
    if keys == [] then (data, backup)
    else
      var n := |keys| - 1;
      assert forall t :: t in ticks[..n] ==> t in ticks;
      var before := Turns(data, backup, keys[..n], ticks[..n]);
      Turn(before.0, before.1, keys[n], ticks[n])
  }

  /** One more endpoint is one more turn. */
  lemma TurnsSnoc(data: map<string, Dir>, backup: map<string, Dir>, keys: seq<string>, ticks: seq<Tick>, i: nat)
    requires ValidDirs(data) && ValidDirs(backup) && |keys| == |ticks| && i < |keys|
    requires forall t :: t in ticks ==> ValidTime(t.now)
    ensures forall t :: t in ticks[..i] ==> t in ticks
    ensures forall t :: t in ticks[..i + 1] ==> t in ticks
    ensures var before := Turns(data, backup, keys[..i], ticks[..i]);
            Turns(data, backup, keys[..i + 1], ticks[..i + 1]) == Turn(before.0, before.1, keys[i], ticks[i])
  {
    assert keys[..i + 1][..i] == keys[..i] && ticks[..i + 1][..i] == ticks[..i];
    assert forall t :: t in ticks[..i + 1] ==> t in ticks;
  }

  /** A failed fetch writes nothing: with both directories present the turn changes nothing. */
  lemma FailedFetchChangesNothing(data: map<string, Dir>, backup: map<string, Dir>, key: string, tick: Tick)
    requires ValidDirs(data) && ValidDirs(backup) && ValidTime(tick.now)
    requires key in data && key in backup && tick.status != 200
    ensures Turn(data, backup, key, tick) == (data, backup)
  {
  }

  /**
   * A successful fetch leaves exactly one ".json" file in the live directory:
   * the snapshot just written, when the file system gives it a later mtime
   * than every file already there.
   */
  lemma StoreLeavesOneSnapshot(live: Dir, saved: Dir, key: string, tick: Tick)
    requires ValidDir(live) && ValidDir(saved) && ValidTime(tick.now)
    requires forall n :: n in live.files ==> live.files[n].mtime < tick.writtenAt
    ensures var name := SnapshotName(key, tick.now);
            var after := Store(live, saved, key, tick).0;
            && JsonSet(after) == {name}
            && after.files[name] == File(tick.writtenAt, tick.payload)
  {
    var name, file := SnapshotName(key, tick.now), File(tick.writtenAt, tick.payload);
    var written := Put(live, name, file);
    SnapshotNameIsJson(key, tick.now);
    assert name in JsonSet(written);
    if |JsonSet(written)| > 1 {
      MoveKeepsOnlyNewest(written, saved);
      NewestIsLatest(written);
      NewFileIsNewest(live, written, name, file, Newest(written));
    } else {
      MoveNothingWhenFew(written, saved);
      SmallSetWith(JsonSet(written), name);
    }
  }

  /** A file written with an mtime later than every existing one is the only one that is not older than it. */
  lemma NewFileIsNewest(live: Dir, written: Dir, name: string, file: File, newest: string)
    requires written.files == live.files[name := file]
    requires forall n :: n in live.files ==> live.files[n].mtime < file.mtime
    requires newest in written.files && Mtime(written, name) <= Mtime(written, newest)
    ensures newest == name
  {
  }

  /** A set of at most one element that holds x is {x}. */
  lemma SmallSetWith(s: set<string>, x: string)
    requires x in s && |s| <= 1
    ensures s == {x}
  {
    assert |s - {x}| == |s| - 1;
    assert s == (s - {x}) + {x};
  }


  /** The same, for the turn of one endpoint on the whole trees. */
  lemma SuccessfulFetchLeavesOneSnapshot(data: map<string, Dir>, backup: map<string, Dir>, key: string, tick: Tick)
    requires ValidDirs(data) && ValidDirs(backup) && ValidTime(tick.now) && tick.status == 200
    requires key in data ==> forall n :: n in data[key].files ==> data[key].files[n].mtime < tick.writtenAt
    ensures var live := Turn(data, backup, key, tick).0[key];
            var name := SnapshotName(key, tick.now);
            && JsonSet(live) == {name}
            && live.files[name] == File(tick.writtenAt, tick.payload)
  {
    StoreLeavesOneSnapshot(MakeDir(data, key)[key], MakeDir(backup, key)[key], key, tick);
  }

  /** The body of the `for` loop of `save_data`, for one endpoint. */
  method SaveTurn(fs: FileSystem, key: string, tick: Tick)
    requires fs.Valid() && ValidTime(tick.now)
    modifies fs
    ensures fs.Valid()
    ensures fs.data == Turn(old(fs.data), old(fs.backup), key, tick).0
    ensures fs.backup == Turn(old(fs.data), old(fs.backup), key, tick).1
  {
    fs.MakeDirs(key);
    ghost var data1, backup1 := fs.data, fs.backup;
    assert data1 == MakeDir(old(fs.data), key) && backup1 == MakeDir(old(fs.backup), key);
    if tick.status == 200 {
      var name := SnapshotName(key, tick.now);
      var file := File(tick.writtenAt, tick.payload);
      fs.WriteSnapshot(key, name, file);
      ghost var written := Put(data1[key], name, file);
      fs.MoveToBackup(key);
      ghost var stored := Store(data1[key], backup1[key], key, tick);
      UpdateTwice(data1, key, written, MoveSpec(written, backup1[key]).0);
      assert fs.data == data1[key := stored.0];
      assert fs.backup == backup1[key := stored.1];
    }
  }

  /** The `for` loop of `save_data`: the turn of each endpoint in turn. */
  method SaveAll(fs: FileSystem, keys: seq<string>, ticks: seq<Tick>)
    requires fs.Valid() && |ticks| == |keys|
    requires forall t :: t in ticks ==> ValidTime(t.now)
    modifies fs
    ensures fs.Valid()
    ensures (fs.data, fs.backup) == Turns(old(fs.data), old(fs.backup), keys, ticks)
  {
    var i := 0;
    while i < |keys|
      invariant 0 <= i <= |keys|
      invariant fs.Valid()
      invariant (fs.data, fs.backup) == Turns(old(fs.data), old(fs.backup), keys[..i], ticks[..i])
    {
      TurnsSnoc(old(fs.data), old(fs.backup), keys, ticks, i);
      assert ticks[i] in ticks;
      SaveTurn(fs, keys[i], ticks[i]);
      i := i + 1;
    }
    assert keys[..i] == keys && ticks[..i] == ticks;
  }

  /**
   * `save_data`: the three turns, then `save_to_db` on the live
   * directories.  The load runs on its own thread in the source; here it
   * runs after the turns, as that thread is started only once they are over.
   */
  method SaveData(fs: FileSystem, db: Database, ticks: seq<Tick>) returns (stored: bool)
    requires fs.Valid() && |ticks| == |Endpoints|
    requires forall t :: t in ticks ==> ValidTime(t.now)
    modifies fs, db
    ensures fs.Valid()
    ensures (fs.data, fs.backup) == Turns(old(fs.data), old(fs.backup), Endpoints, ticks)
    ensures stored <==> LoadSpec(old(db.Contents()), fs.data).Success?
    ensures db.Contents() == if stored then LoadSpec(old(db.Contents()), fs.data).value else old(db.Contents())
  {
    SaveAll(fs, Endpoints, ticks);
    stored := db.SaveToDb(fs.data);
  }
}
