/** The disk swap of a reinstall on libvirt, over a directory whose operations may fail. */
module DiskSwap {
  import opened Basics

  type Path = string
  datatype Content = Content(tag: nat)

  /** The fallible operations of one reinstall, each performed at most once. */
  datatype Op =
    | CreateDisk | MoveAway | MoveIn | UndoMove | DropNew
    | AttachInstaller | AttachSeed | AttachDriver | Start
    | SetAside | PutBack | DropFailed | DropBackup | Inspect

  /** Which media the request brings and whether the domain is to be started. */
  datatype Request = Request(installer: bool, seed: bool, driver: bool, start: bool, image: Content)

  datatype Paths = Paths(disk: Path, newDisk: Path, backup: Path, failed: Path)

  /** The four names are different and the three derived from a random suffix are unused. */
  predicate Usable(p: Paths, files: map<Path, Content>) {
    && p.disk in files
    && p.newDisk !in files && p.backup !in files && p.failed !in files
    && p.newDisk != p.backup && p.newDisk != p.failed && p.backup != p.failed
  }

  /** What the directory looked like after one operation; `committed` once the new disk, the
      media and the start have all succeeded. A crash leaves one of these behind. */
  datatype Snapshot = Snapshot(files: map<Path, Content>, committed: bool)

  predicate OriginalKept(s: Snapshot, p: Paths, original: Content) {
    || (p.disk in s.files && s.files[p.disk] == original)
    || (p.backup in s.files && s.files[p.backup] == original)
  }

  ghost predicate OthersUntouched(files: map<Path, Content>, before: map<Path, Content>, p: Paths) {
    forall q :: q !in {p.disk, p.newDisk, p.backup, p.failed} ==>
      (q in files <==> q in before) && (q in files ==> files[q] == before[q])
  }

  ghost predicate SafeSnapshot(s: Snapshot, p: Paths, before: map<Path, Content>, image: Content)
    requires p.disk in before
  {
    && (!s.committed ==> OriginalKept(s, p, before[p.disk]))
    && (s.committed ==> p.disk in s.files && s.files[p.disk] == image)
    && OthersUntouched(s.files, before, p)
  }

  ghost predicate SafeHistory(history: seq<Snapshot>, p: Paths, before: map<Path, Content>, image: Content)
    requires p.disk in before
  {
    history != [] && forall i :: 0 <= i < |history| ==> SafeSnapshot(history[i], p, before, image)
  }

  ghost function Last(history: seq<Snapshot>): Snapshot
    requires history != []
  {
    history[|history| - 1]
  }

  lemma SafeHistoryGrows(history: seq<Snapshot>, s: Snapshot, p: Paths, before: map<Path, Content>, image: Content)
    requires p.disk in before && SafeHistory(history, p, before, image) && SafeSnapshot(s, p, before, image)
    ensures SafeHistory(history + [s], p, before, image)
  {
  }

  /** The directory between the two renames, and after them. */
  ghost function MovedAway(p: Paths, before: map<Path, Content>, image: Content): map<Path, Content>
    requires p.disk in before
  {
    (before - {p.disk})[p.newDisk := image][p.backup := before[p.disk]]
  }

  ghost function Swapped(p: Paths, before: map<Path, Content>, image: Content): map<Path, Content>
    requires p.disk in before
  {
    before[p.disk := image][p.backup := before[p.disk]]
  }

  ghost predicate Restored(files: map<Path, Content>, p: Paths, before: map<Path, Content>)
    requires p.disk in before
  {
    p.disk in files && files[p.disk] == before[p.disk] && p.backup !in files
  }

  ghost predicate InBackup(files: map<Path, Content>, p: Paths, before: map<Path, Content>)
    requires p.disk in before
  {
    p.backup in files && files[p.backup] == before[p.disk]
  }

  /** The media are attached and the domain is started, as far as asked for. */
  predicate MediaSucceeds(r: Request, succeeds: Op -> bool) {
    && (r.installer ==> succeeds(AttachInstaller))
    && (r.seed ==> succeeds(AttachSeed))
    && (r.driver ==> succeeds(AttachDriver))
    && (r.start ==> succeeds(Start))
  }

  predicate Commits(r: Request, succeeds: Op -> bool) {
    succeeds(CreateDisk) && succeeds(MoveAway) && succeeds(MoveIn) && MediaSucceeds(r, succeeds)
  }

  /** No rename was needed to undo the swap, or the one that was needed worked. */
  predicate RollsBack(r: Request, succeeds: Op -> bool) {
    if !succeeds(CreateDisk) || !succeeds(MoveAway) then true
    else if !succeeds(MoveIn) then succeeds(UndoMove)
    else succeeds(PutBack)
  }

  class Host {
    var files: map<Path, Content>
    const succeeds: Op -> bool
    ghost var history: seq<Snapshot>
    ghost var committed: bool

    constructor (files: map<Path, Content>, succeeds: Op -> bool)
      ensures this.files == files && this.succeeds == succeeds
      ensures history == [Snapshot(files, false)] && !committed
    {
      this.files, this.succeeds := files, succeeds;
      history, committed := [Snapshot(files, false)], false;
    }

    /** `qemu-img create`; a failure may leave a partial file. */
    method Create(target: Path, content: Content, partial: Option<Content>) returns (ok: bool)
      modifies this`files, this`history
      ensures ok == succeeds(CreateDisk)
      ensures files == if ok then old(files)[target := content]
                       else if partial.Some? then old(files)[target := partial.value] else old(files)
      ensures history == old(history) + [Snapshot(files, committed)]
    {
      ok := succeeds(CreateDisk);
      if ok {
        files := files[target := content];
      } else if partial.Some? {
        files := files[target := partial.value];
      }
      history := history + [Snapshot(files, committed)];
    }

    /** Renaming replaces a file at the destination and is atomic. */
    method Rename(op: Op, from: Path, to: Path) returns (ok: bool)
      modifies this`files, this`history
      ensures ok == (succeeds(op) && from in old(files))
      ensures files == if ok then (old(files) - {from})[to := old(files)[from]] else old(files)
      ensures history == old(history) + [Snapshot(files, committed)]
    {
      ok := succeeds(op) && from in files;
      if ok {
        files := (files - {from})[to := files[from]];
      }
      history := history + [Snapshot(files, committed)];
    }

    method Remove(op: Op, path: Path) returns (ok: bool)
      modifies this`files, this`history
      ensures ok == (succeeds(op) && path in old(files))
      ensures files == if ok then old(files) - {path} else old(files)
      ensures history == old(history) + [Snapshot(files, committed)]
    {
      ok := succeeds(op) && path in files;
      if ok {
        files := files - {path};
      }
      history := history + [Snapshot(files, committed)];
    }

    method AttachMedia(r: Request) returns (ok: bool)
      ensures ok == MediaSucceeds(r, succeeds)
    {
      if r.installer && !succeeds(AttachInstaller) { return false; }
      if r.seed && !succeeds(AttachSeed) { return false; }
      if r.driver && !succeeds(AttachDriver) { return false; }
      if r.start && !succeeds(Start) { return false; }
      ok := true;
    }

    /** Undo a swap whose second rename failed. */
    method UndoMovedAway(p: Paths, ghost before: map<Path, Content>, image: Content)
      requires Usable(p, before) && !committed && SafeHistory(history, p, before, image)
      requires files == MovedAway(p, before, image)
      modifies this`files, this`history
      ensures SafeHistory(history, p, before, image) && Last(history) == Snapshot(files, committed)
      ensures if succeeds(UndoMove) then Restored(files, p, before) else InBackup(files, p, before)
      ensures succeeds(UndoMove) && succeeds(DropNew) ==> files == before
    {
      var undone := Rename(UndoMove, p.backup, p.disk);
      assert undone ==> files == before[p.newDisk := image];
      SafeHistoryGrows(history[..|history| - 1], Last(history), p, before, image);
      var dropped := Remove(DropNew, p.newDisk);
      SafeHistoryGrows(history[..|history| - 1], Last(history), p, before, image);
    }

    /** Undo a completed swap after the media failed. */
    method UndoSwap(p: Paths, ghost before: map<Path, Content>, image: Content)
      requires Usable(p, before) && !committed && SafeHistory(history, p, before, image)
      requires files == Swapped(p, before, image)
      modifies this`files, this`history
      ensures SafeHistory(history, p, before, image) && Last(history) == Snapshot(files, committed)
      ensures if succeeds(PutBack) then Restored(files, p, before) else InBackup(files, p, before)
      ensures succeeds(SetAside) && succeeds(PutBack) && succeeds(DropFailed) ==> files == before
    {
      var back := PutOriginalBack(p, before, image);
      var dropped := Remove(DropFailed, p.failed);
      SafeHistoryGrows(history[..|history| - 1], Last(history), p, before, image);
    }

    /** Its two renames: the new disk aside, the original back. */
    method PutOriginalBack(p: Paths, ghost before: map<Path, Content>, image: Content) returns (back: bool)
      requires Usable(p, before) && !committed && SafeHistory(history, p, before, image)
      requires files == Swapped(p, before, image)
      modifies this`files, this`history
      ensures SafeHistory(history, p, before, image) && OthersUntouched(files, before, p) && back == succeeds(PutBack)
      ensures if back then files == if succeeds(SetAside) then before[p.failed := image] else before
              else InBackup(files, p, before)
    {
      var aside := Rename(SetAside, p.disk, p.failed);
      SafeHistoryGrows(history[..|history| - 1], Last(history), p, before, image);
      back := Rename(PutBack, p.backup, p.disk);
      assert back ==> files == if aside then before[p.failed := image] else before;
      SafeHistoryGrows(history[..|history| - 1], Last(history), p, before, image);
    }

    /** Everything up to and including the second rename. */
    method Swap(p: Paths, image: Content, partial: Option<Content>) returns (ok: bool)
      requires Usable(p, files) && !committed && history == [Snapshot(files, false)]
      modifies this`files, this`history
      ensures SafeHistory(history, p, old(files), image) && Last(history) == Snapshot(files, committed)
      ensures ok == (succeeds(CreateDisk) && succeeds(MoveAway) && succeeds(MoveIn))
      ensures ok ==> files == Swapped(p, old(files), image)
      ensures !ok ==> if !succeeds(CreateDisk) || !succeeds(MoveAway) || succeeds(UndoMove)
                      then Restored(files, p, old(files)) else InBackup(files, p, old(files))
      ensures !ok && succeeds(CreateDisk) && (succeeds(MoveAway) ==> succeeds(UndoMove)) && succeeds(DropNew)
              ==> files == old(files)
    {
      ghost var before := files;
      ok := Create(p.newDisk, image, partial);
      SafeHistoryGrows(history[..|history| - 1], Last(history), p, before, image);
      if !ok { return; }
      ok := Rename(MoveAway, p.disk, p.backup);
      assert ok ==> files == MovedAway(p, before, image);
      SafeHistoryGrows(history[..|history| - 1], Last(history), p, before, image);
      if !ok {
        var dropped := Remove(DropNew, p.newDisk);
        SafeHistoryGrows(history[..|history| - 1], Last(history), p, before, image);
        return;
      }
      ok := Rename(MoveIn, p.newDisk, p.disk);
      assert ok ==> files == Swapped(p, before, image);
      SafeHistoryGrows(history[..|history| - 1], Last(history), p, before, image);
      if !ok { UndoMovedAway(p, before, image); }
    }

    /** The original content survives every failure and every crash before the commit point;
        which outcome is reached, and where the original is then, is decided exactly. */
    method Reinstall(p: Paths, r: Request, partial: Option<Content>) returns (result: Result<()>)
      requires Usable(p, files) && !committed && history == [Snapshot(files, false)]
      modifies this
      // After every operation before the new disk is committed, the original exists; after
      // that the disk is the new one; and no other file is ever touched.
      ensures SafeHistory(history, p, old(files), r.image) && Last(history) == Snapshot(files, committed)
      ensures committed == Commits(r, succeeds)
      ensures result.Ok? <==> Commits(r, succeeds) && succeeds(DropBackup) && succeeds(Inspect)
      // Success leaves the new disk alone; so does an error after the commit point, but for the backup.
      ensures committed ==> files == if succeeds(DropBackup) then old(files)[p.disk := r.image]
                                     else Swapped(p, old(files), r.image)
      // A failure before that point leaves the original at the disk path exactly when the
      // rollback worked, and at the backup path otherwise.
      ensures !committed ==> if RollsBack(r, succeeds) then Restored(files, p, old(files))
                             else InBackup(files, p, old(files))
      // A rollback that worked throughout leaves nothing behind.
      ensures !committed && RollsBack(r, succeeds) && succeeds(CreateDisk) && succeeds(DropNew)
              && succeeds(SetAside) && succeeds(DropFailed)
              ==> files == old(files)
    {
      ghost var before := files;
      var swapped := Swap(p, r.image, partial);
      if !swapped { return Err(Hypervisor); }
      var ready := AttachMedia(r);
      if !ready {
        UndoSwap(p, before, r.image);
        return Err(Hypervisor);
      }
      committed := true;
      history := history + [Snapshot(files, committed)];
      SafeHistoryGrows(history[..|history| - 1], Last(history), p, before, r.image);
      var dropped := Remove(DropBackup, p.backup);
      assert dropped ==> files == before[p.disk := r.image];
      SafeHistoryGrows(history[..|history| - 1], Last(history), p, before, r.image);
      if !dropped { return Err(Hypervisor); }
      result := if succeeds(Inspect) then Ok(()) else Err(Hypervisor);
    }
  }
}
