// The data mover of pkg/dockerlocation: a move, its undo, and the recovery of a
// move cut short. Every command, rename and write is one step that may fail;
// `up` falls when this process stops, and from then on no step has any effect,
// so that what holds at the end of a method holds at every stop inside it.
module DockerMover {
  import opened DockerDisk

  datatype Outcome =
    | Finished        // the move worked
    | NothingChanged  // it failed before the switch
    | PutBack         // the switch was undone
    | Stranded        // it could not be undone, and nothing was deleted
    | Cut             // this process stopped in it

  class Mover {
    const way: Way
    ghost const home: Pair<Home>

    var disk: Disk
    var drive: bool          // the drive of the far folder is there
    var saved: State         // the state file
    var up: bool             // this process has not been stopped
    var serving: bool        // Docker was asked to run since it was last stopped
    var stuck: Pair<bool>    // the areas whose mount would not stop in an undo
    var calm: bool           // from now on no step fails and this process does not stop

    ghost var lost: bool     // a write of the state file did not reach the disk
    ghost var away: bool     // a way back was put right without its drive, when not all was bound any more

    constructor (way: Way, disk: Disk, drive: bool, ghost home: Pair<Home>)
      requires forall a :: Safe(way, home.At(a), disk.At(a))
      requires drive
      ensures this.way == way && this.disk == disk && this.home == home && this.drive == drive
      ensures up && serving && !calm && !lost && !away && saved == State(Idle, false, {})
      ensures forall a :: Safe(way, home.At(a), disk.At(a))
    {
      this.way, this.disk, this.drive, this.home := way, disk, drive, home;
      saved, up, serving := State(Idle, false, {}), true, true;
      stuck, calm := Pair(false, false), false;
      lost, away := false, false;
    }

    // The state file is current, and no way back was last put right without its
    // drive with an area no longer bound to it.
    ghost predicate Tracked()
      reads `lost, `away
    {
      !lost && (way == ToDefault ==> !away)
    }

    ghost predicate Valid()
      reads `disk, `saved, `lost, `away, `drive, `serving
    {
      && Fine(way, home.containerd, disk.containerd, Containerd, saved, Tracked(), drive)
      && Fine(way, home.docker, disk.docker, Docker, saved, Tracked(), drive)
      && (Tracked() ==> CopiesStay(way, home, disk))
      && (saved.Busy() ==> saved.offered == {})
      && (!lost ==> serving || saved.Busy())
    }

    // Docker, whenever it runs, runs on what it had before the move.
    ghost predicate AllAtHome()
      reads `disk
    {
      BothAtHome(way, home, disk)
    }

    // It runs on that, or on a complete copy of it.
    ghost predicate AllServed()
      reads `disk
    {
      Served(way, home.containerd, disk.containerd) && Served(way, home.docker, disk.docker)
    }

    // Every area the move moves was switched.
    ghost predicate Standing()
      reads `disk
    {
      SwitchStands(way, home.containerd, disk.containerd) && SwitchStands(way, home.docker, disk.docker)
    }

    // A complete copy of every area the move moves is there.
    ghost predicate CopiesKept()
      reads `disk
    {
      BothCopiesKept(way, home, disk)
    }

    // A switch under way: run now, its undos can each work when its turn comes,
    // and would take the disk back to start.
    ghost predicate InSwitch(us: seq<Undo>, start: Disk)
      reads `disk, `saved, `lost, `away, `drive, `serving
    {
      && Valid() && Same(Undone(disk, us), start) && Undoable(way, home, disk, us) && Runs(disk, us, drive)
      && Mending(way, home, disk, us)
    }

    // An undo under way from start: the first i undos are left to run.
    ghost predicate InUndo(us: seq<Undo>, i: nat, start: Disk)
      requires i <= |us|
      reads `disk, `saved, `lost, `away, `drive, `serving, `stuck
    {
      && Valid() && (way == ToFolder ==> Orderly(us)) && (way == ToDefault ==> stuck == Pair(false, false))
      && StillUndoable(way, home, disk, us[..i], stuck)
      && LeftAlone(us, i, start, disk, stuck)
    }

    // What a step leaves alone: everything but the disk.
    twostate predicate OnlyDisk()
      reads this
    {
      && (up ==> old(up)) && (calm && old(up) ==> up)
      && drive == old(drive) && saved == old(saved) && serving == old(serving)
      && stuck == old(stuck) && lost == old(lost) && away == old(away)
    }

    // What an undo leaves alone: everything but the disk and the stuck marks.
    twostate predicate OnlyUndone()
      reads this
    {
      && (up ==> old(up)) && (calm && old(up) ==> up)
      && drive == old(drive) && saved == old(saved) && serving == old(serving)
      && lost == old(lost) && away == old(away)
    }

    // What a start of the services leaves alone.
    twostate predicate OnlyServed()
      reads this
    {
      && (up ==> old(up) && serving) && (calm && old(up) ==> up)
      && drive == old(drive) && saved == old(saved) && stuck == old(stuck) && lost == old(lost) && away == old(away)
      && KeptByStart(old(disk).containerd, disk.containerd) && KeptByStart(old(disk).docker, disk.docker)
    }

    // One step of the move: it may be the last, and it may fail.
    method Try() returns (ok: bool)
      modifies `up
      ensures up ==> old(up)
      ensures (ok ==> up) && (calm && old(up) ==> ok)
    {
      var stops: bool := *;
      if stops && !calm {
        up := false;
      }
      var fails: bool := *;
      ok := up && (calm || !fails);
    }

    // Nothing may go wrong any more.
    method MayCalm()
      modifies `calm
      ensures (old(calm) ==> calm) && (calm ==> old(calm) || up)
    {
      var now: bool := *;
      calm := calm || (now && up);
    }

    // --- folders ---

    method Rename(a: Area, from: Slot, to: Slot) returns (ok: bool)
      modifies `disk, `up
      ensures OnlyDisk()
      ensures ok ==> up && CanRename(old(disk).At(a), from, to)
      ensures calm && old(up) && CanRename(old(disk).At(a), from, to) ==> ok
      ensures disk == if ok then old(disk).With(a, Renamed(old(disk).At(a), from, to)) else old(disk)
    {
      ok := Try();
      if ok && CanRename(disk.At(a), from, to) {
        disk := disk.With(a, Renamed(disk.At(a), from, to));
      } else {
        ok := false;
      }
    }

    // os.Remove of the live folder, where its absence is no error.
    method RemoveLive(a: Area) returns (ok: bool)
      modifies `disk, `up
      ensures OnlyDisk()
      ensures ok ==> up && (old(disk).At(a).live.Missing? || CanRemoveLive(old(disk).At(a)))
      ensures calm && old(up) && (old(disk).At(a).live.Missing? || CanRemoveLive(old(disk).At(a))) ==> ok
      ensures disk == if ok then old(disk).With(a, old(disk).At(a).(live := Missing)) else old(disk)
    {
      ok := Try();
      if ok && (disk.At(a).live.Missing? || CanRemoveLive(disk.At(a))) {
        disk := disk.With(a, disk.At(a).(live := Missing));
      } else {
        ok := false;
      }
    }

    // os.MkdirAll of the live folder.
    method MakeLive(a: Area) returns (ok: bool)
      modifies `disk, `up
      ensures OnlyDisk()
      ensures (ok ==> up) && (calm && old(up) ==> ok)
      ensures var f := old(disk).At(a);
        disk == if ok && f.live.Missing? then old(disk).With(a, f.(live := Dir(Made, true))) else old(disk)
    {
      ok := Try();
      if ok && disk.At(a).live.Missing? {
        disk := disk.With(a, disk.At(a).(live := Dir(Made, true)));
      }
    }

    // removeTree: a removal that fails may have removed some of the tree; a folder
    // that is not there, its drive absent too, is none to remove.
    method RemoveTree(a: Area, s: Slot) returns (ok: bool)
      modifies `disk, `up
      ensures OnlyDisk() && (calm && old(up) ==> ok)
      ensures s == Far && !drive ==> disk == old(disk)
      ensures ok && (s == Far ==> drive) ==> disk == old(disk).With(a, Put(old(disk).At(a), s, Missing))
      ensures !ok ==>
          disk == old(disk) || disk == old(disk).With(a, Put(old(disk).At(a), s, Damaged(Get(old(disk).At(a), s))))
    {
      ok := Try();
      if s != Far || drive {
        if ok {
          disk := disk.With(a, Put(disk.At(a), s, Missing));
        } else {
          var some: bool := *;
          if up && some {
            disk := disk.With(a, Put(disk.At(a), s, Damaged(Get(disk.At(a), s))));
          }
        }
      }
    }

    // The copy of what the live folder shows; one that fails is partial.
    method Copy(a: Area) returns (ok: bool)
      modifies `disk, `up
      ensures OnlyDisk()
      ensures (ok ==> up) && (calm && old(up) ==> ok) && disk == old(disk).With(a, disk.At(a))
      ensures CopyMade(way, old(disk).At(a), disk.At(a), ok)
    {
      ok := Try();
      var f := disk.At(a);
      if ok {
        var what := if IsOriginal(Shown(f)) then Copied(true, false) else Made;
        disk := disk.With(a, Put(f, CopySlot(way), Dir(what, EmptyOrMissing(Shown(f)))));
      } else if up {
        var some: bool, bare: bool := *, *;
        if some {
          disk := disk.With(a, Put(f, CopySlot(way), Dir(Copied(false, false), bare)));
        }
      }
    }

    // sync -f: what was copied whole is on the disk from here on.
    method Flush(a: Area) returns (ok: bool)
      modifies `disk, `up
      ensures OnlyDisk()
      ensures (ok ==> up) && (calm && old(up) ==> ok)
      ensures var f, s := old(disk).At(a), CopySlot(way);
        disk == if ok && IsCopy(Get(f, s))
            then old(disk).With(a, Put(f, s, Get(f, s).(what := Copied(Get(f, s).what.whole, true))))
                else old(disk)
    {
      ok := Try();
      var f := disk.At(a);
      var t := Get(f, CopySlot(way));
      if ok && IsCopy(t) {
        disk := disk.With(a, Put(f, CopySlot(way), t.(what := Copied(t.what.whole, true))));
      }
    }

    // --- units ---

    // writeSynced of the unit: truncated, then written.
    method WriteUnit(a: Area, u: UnitFile) returns (ok: bool)
      modifies `disk, `up
      ensures OnlyDisk() && (calm && old(up) ==> ok)
      ensures ok ==> up && disk == old(disk).With(a, old(disk).At(a).(unit := u))
      ensures !ok ==> disk == old(disk) || disk == old(disk).With(a, old(disk).At(a).(unit := CutUnit))
    {
      ok := Try();
      if ok {
        disk := disk.With(a, disk.At(a).(unit := CutUnit));
        ok := Try();
        if ok {
          disk := disk.With(a, disk.At(a).(unit := u));
        }
      }
    }

    method WriteDropIn(a: Area) returns (ok: bool)
      modifies `disk, `up
      ensures OnlyDisk() && (calm && old(up) ==> ok)
      ensures ok ==> up && disk == old(disk).With(a, old(disk).At(a).(dropIn := true))
      ensures !ok ==> disk == old(disk) || disk == old(disk).With(a, old(disk).At(a).(dropIn := true))
    {
      ok := Try();
      if ok {
        disk := disk.With(a, disk.At(a).(dropIn := true));
        ok := Try();
      }
    }

    // restore: the unit as it was before, or gone.
    method RestoreUnit(a: Area, prev: UnitFile) returns (ok: bool)
      modifies `disk, `up
      ensures OnlyDisk() && (calm && old(up) ==> ok)
      ensures ok ==> up && disk == old(disk).With(a, old(disk).At(a).(unit := prev))
      ensures !ok ==>
          disk == old(disk) || (prev != NoUnit && disk == old(disk).With(a, old(disk).At(a).(unit := CutUnit)))
    {
      if prev == NoUnit {
        ok := Try();
        if ok {
          disk := disk.With(a, disk.At(a).(unit := NoUnit));
        }
      } else {
        ok := WriteUnit(a, prev);
      }
    }

    method RestoreDropIn(a: Area, prev: bool) returns (ok: bool)
      modifies `disk, `up
      ensures OnlyDisk() && (calm && old(up) ==> ok)
      ensures ok ==> up && disk == old(disk).With(a, old(disk).At(a).(dropIn := prev))
      ensures !ok ==> disk == old(disk) || (prev && disk == old(disk).With(a, old(disk).At(a).(dropIn := true)))
    {
      if prev {
        ok := WriteDropIn(a);
      } else {
        ok := Try();
        if ok {
          disk := disk.With(a, disk.At(a).(dropIn := false));
        }
      }
    }

    // Both as they were before, whatever becomes of either, and the units reloaded.
    method RestoreBoth(a: Area, unit: UnitFile, dropIn: bool) returns (ok: bool)
      modifies `disk, `up
      ensures OnlyDisk() && (calm && old(up) ==> ok)
      ensures disk == old(disk).With(a, old(disk).At(a).(unit := disk.At(a).unit, dropIn := disk.At(a).dropIn))
      ensures disk.At(a).unit in {old(disk).At(a).unit, unit} || (unit != NoUnit && disk.At(a).unit == CutUnit)
      ensures ok ==> disk.At(a).unit == unit && disk.At(a).dropIn == dropIn
    {
      var first := RestoreUnit(a, unit);
      var second := RestoreDropIn(a, dropIn);
      var reloaded := Try();
      ok := first && second && reloaded;
    }

    // systemctl stop of a mount unit.
    method StopUnit(a: Area) returns (ok: bool)
      modifies `disk, `up
      ensures OnlyDisk()
      ensures (ok ==> up) && (calm && old(up) ==> ok)
      ensures disk == if ok then old(disk).With(a, old(disk).At(a).(mounted := false)) else old(disk)
    {
      ok := Try();
      if ok {
        disk := disk.With(a, disk.At(a).(mounted := false));
      }
    }

    // systemctl enable or disable, when the source ignores its failure.
    method SetEnabled(a: Area, on: bool) returns (ok: bool)
      modifies `disk, `up
      ensures OnlyDisk() && (calm && old(up) ==> ok)
      ensures ok ==> up && disk.At(a).enabled == on
      ensures disk == old(disk) || disk == old(disk).With(a, old(disk).At(a).(enabled := on))
    {
      ok := Try();
      if ok {
        disk := disk.With(a, disk.At(a).(enabled := on));
      }
    }

    // systemctl start of a mount unit.
    method StartUnit(a: Area) returns (ok: bool)
      modifies `disk, `up
      ensures OnlyDisk()
      ensures ok ==> up && CanMount(old(disk).At(a), drive)
      ensures calm && old(up) && CanMount(old(disk).At(a), drive) ==> ok
      ensures disk == if ok then old(disk).With(a, MountedOn(old(disk).At(a))) else old(disk)
    {
      ok := Try();
      if ok && CanMount(disk.At(a), drive) {
        disk := disk.With(a, MountedOn(disk.At(a)));
      } else {
        ok := false;
      }
    }

    // systemctl enable --now: it may have enabled, and mounted, before failing.
    method EnableNow(a: Area) returns (ok: bool)
      modifies `disk, `up
      ensures OnlyDisk()
      ensures ok ==> up && disk.At(a).mounted
      ensures disk == old(disk).With(a, disk.At(a))
      ensures calm && old(up) && CanMount(old(disk).At(a), drive) ==> ok
      ensures EnabledNow(old(disk).At(a), disk.At(a), drive)
    {
      ok := SetEnabled(a, true);
      if disk.At(a).enabled {
        var mounted := StartUnit(a);
        ok := ok && mounted;
      } else {
        ok := false;
      }
    }

    // --- services ---

    // A service asked to start may not.
    method ServiceStarts(a: Area)
      requires Valid()
      modifies `disk
      ensures Valid()
      ensures disk == old(disk).With(a, disk.At(a))
      ensures disk.At(a) == old(disk).At(a) || disk.At(a) == ServiceStarted(old(disk).At(a), drive)
      ensures KeptByStart(old(disk).At(a), disk.At(a))
    {
      var starts: bool := *;
      if starts {
        ServiceStartedKeeps(disk.At(a), drive);
        ServiceStartedFine(way, home.At(a), disk.At(a), a, saved, Tracked(), drive);
        disk := disk.With(a, ServiceStarted(disk.At(a), drive));
      }
    }

    method StartServices()
      requires Valid()
      modifies `disk, `up, `serving
      ensures Valid() && OnlyServed()
    {
      var asked := Try();
      if up {
        serving := true;
        ServiceStarts(Containerd);
        ServiceStarts(Docker);
      }
    }

    // stopServices, and the unmount of what Docker left under its folders.
    method Quiesce() returns (ok: bool)
      modifies `up, `serving
      ensures up ==> old(up)
      ensures (ok ==> up) && (calm && old(up) ==> ok)
      ensures up || serving == old(serving) || !serving
    {
      ok := Try();
      if up {
        serving := false;
      }
      if ok {
        ok := Try();
      }
    }

    // One atomic write of the state file, which may not reach the disk.
    method Save(s: State)
      requires Valid() && (s.Busy() ==> s.offered == {}) && (up ==> serving || s.Busy())
      requires up && Tracked() ==>
        && Fine(way, home.containerd, disk.containerd, Containerd, s, true, drive)
        && Fine(way, home.docker, disk.docker, Docker, s, true, drive)
      modifies `up, `saved, `lost
      ensures Valid() && (up ==> old(up)) && (calm && old(up) ==> up)
      ensures up ==> saved == s || lost
      ensures saved == s || saved == old(saved)
      ensures calm && old(up) ==> saved == s && lost == old(lost)
      ensures old(lost) ==> lost
    {
      var ok := Try();
      if ok {
        saved := s;
      } else if up {
        lost := true;
      }
    }

    // --- the switch to a folder ---

    // The unit and the drop-in of an area, written.
    method WriteUnits(a: Area) returns (ok: bool)
      modifies `disk, `up
      ensures OnlyDisk() && (calm && old(up) ==> ok)
      ensures ok ==> up && disk.At(a).unit == BoundUnit && disk.At(a).dropIn
      ensures disk == old(disk).With(a, old(disk).At(a).(unit := disk.At(a).unit, dropIn := disk.At(a).dropIn))
      ensures disk.At(a).unit == old(disk).At(a).unit || disk.At(a).unit != NoUnit
    {
      ok := WriteUnit(a, BoundUnit);
      if ok {
        ok := WriteDropIn(a);
      }
    }

    // The folder of an area set aside, and its unit written.
    method SwitchArea(a: Area) returns (pushed: seq<Undo>, ok: bool)
      modifies `disk, `up
      ensures OnlyDisk()
      ensures ok ==> up
      ensures calm && old(up) && CanRename(old(disk).At(a), Live, Aside) ==> ok
      ensures disk == old(disk).With(a, disk.At(a))
      ensures AreaSwitching(a, old(disk).At(a), disk.At(a), pushed, ok)
    {
      var prevUnit, prevDrop := disk.At(a).unit, disk.At(a).dropIn;
      pushed := [];
      ok := Rename(a, Live, Aside);
      if !ok {
        return;
      }
      pushed := [FoldersBack(a)];
      ok := MakeLive(a);
      if !ok {
        return;
      }
      pushed := [FoldersBack(a), UnitsBack(a, prevUnit, prevDrop)];
      ok := WriteUnits(a);
    }

    // One area joins a switch to a folder, its undos pushed on the others'.
    method JoinSwitch(a: Area, us: seq<Undo>, ghost start: Disk) returns (all: seq<Undo>, ok: bool)
      requires InSwitch(us, start) && way == ToFolder && drive && (Tracked() ==> saved.phase == Switching)
      requires ReadyForFolder(home.At(a), disk.At(a)) && FarThere(disk.At(a), drive)
      requires home.containerd == InLive ==> disk.containerd.far.Dir?
      requires forall u <- us :: !u.Unmount? && u.a != a
      modifies `disk, `up
      ensures InSwitch(all, start) && OnlyDisk() && disk == old(disk).With(a, disk.At(a))
      ensures forall u <- all :: !u.Unmount? && (u in us || u.a == a)
      ensures calm && old(up) && home.At(a) == InLive ==> ok && up
      ensures ok ==> UnitsWritten(home.At(a), old(disk).At(a), disk.At(a))
    {
      var pushed;
      pushed, ok := SwitchArea(a);
      AreaSwitchingUndone(a, old(disk), disk, pushed, ok);
      AreaSwitchingFine(a, home.At(a), old(disk).At(a), disk.At(a), pushed, ok, saved, Tracked(), drive);
      JoinUndone(start, old(disk), disk, us, pushed);
      UndoablePushArea(home, old(disk), disk, a, us, pushed, ok);
      all := us + pushed;
    }

    // One area's mount joins the switch.
    method JoinMount(a: Area, us: seq<Undo>, ghost start: Disk) returns (all: seq<Undo>, ok: bool)
      requires InSwitch(us, start) && way == ToFolder && drive && Unmount(a) !in us
      requires home.At(a) == InLive && disk.At(a).unit == BoundUnit && disk.At(a).dropIn
      requires !disk.At(a).mounted && disk.At(a).live.Dir?
      modifies `disk, `up
      ensures InSwitch(all, start) && OnlyDisk() && disk == old(disk).With(a, disk.At(a))
      ensures calm && old(up) && FarThere(old(disk).At(a), drive) ==> ok
      ensures all == us + [Unmount(a)]
      ensures ok ==> up && View(disk.At(a)) == View(old(disk).At(a).(mounted := true))
    {
      ok := EnableNow(a);
      EnabledNowFine(way, home.At(a), old(disk).At(a), disk.At(a), a, saved, Tracked(), drive);
      UndoneConcat(disk, us, [Unmount(a)]);
      UndoneUnfolds(disk, [Unmount(a)]);
      UndoneSame(Apply(Unmount(a), disk), old(disk), us);
      RunsUnfolds(disk, [Unmount(a)], drive);
      RunsSame(old(disk), Apply(Unmount(a), disk), us, drive);
      RunsConcat(disk, us, [Unmount(a)], drive);
      UndoablePushUnmount(home, old(disk), disk, a, us);
      all := us + [Unmount(a)];
    }

    // The first half of a switch to a folder: the folders aside, the units written.
    method WriteSwitch() returns (us: seq<Undo>, ok: bool)
      requires Valid() && way == ToFolder && drive
      requires Tracked() ==> saved.phase == Switching
      requires ReadyForFolder(home.containerd, disk.containerd) && ReadyForFolder(home.docker, disk.docker)
      modifies `disk, `up
      ensures InSwitch(us, old(disk)) && OnlyDisk()
      ensures forall u <- us :: !u.Unmount?
      ensures calm && old(up) && !Stray(way, home, old(disk)) ==> ok && up
      ensures ok ==> UnitsWritten(home.containerd, old(disk).containerd, disk.containerd)
      ensures ok ==> UnitsWritten(home.docker, old(disk).docker, disk.docker)
    {
      us, ok := [], true;
      for i := 0 to 2
        invariant InSwitch(us, old(disk)) && OnlyDisk()
        invariant calm && old(up) && !Stray(way, home, old(disk)) ==> ok && up
        invariant forall u <- us :: !u.Unmount? && Index(u.a) < i
        invariant i < 1 ==> disk.containerd == old(disk).containerd
        invariant i < 2 ==> disk.docker == old(disk).docker
        invariant 1 <= i ==> UnitsWritten(home.containerd, old(disk).containerd, disk.containerd)
        invariant 2 <= i ==> UnitsWritten(home.docker, old(disk).docker, disk.docker)
      {
        if FarThere(disk.At(Nth(i)), drive) {
          us, ok := JoinSwitch(Nth(i), us, old(disk));
          if !ok {
            return;
          }
        }
      }
    }

    // The second half: the units enabled and mounted.
    method MountSwitch(us: seq<Undo>, ghost start: Disk) returns (all: seq<Undo>, ok: bool)
      requires InSwitch(us, start) && way == ToFolder && drive && up
      requires forall u <- us :: !u.Unmount?
      requires UnitsWritten(home.containerd, start.containerd, disk.containerd)
      requires UnitsWritten(home.docker, start.docker, disk.docker)
      modifies `disk, `up
      ensures InSwitch(all, start) && OnlyDisk() && (calm ==> ok)
      ensures ok ==> up && SwitchedToFolder(home.containerd, start.containerd, disk.containerd)
      ensures ok ==> SwitchedToFolder(home.docker, start.docker, disk.docker)
    {
      all, ok := us, true;
      for i := 0 to 2
        invariant InSwitch(all, start) && OnlyDisk() && up
        invariant i < 1 ==>
            Unmount(Containerd) !in all && UnitsWritten(home.containerd, start.containerd, disk.containerd)
        invariant i < 2 ==> Unmount(Docker) !in all && UnitsWritten(home.docker, start.docker, disk.docker)
        invariant 1 <= i ==> SwitchedToFolder(home.containerd, start.containerd, disk.containerd)
        invariant 2 <= i ==> SwitchedToFolder(home.docker, start.docker, disk.docker)
      {
        if FarThere(disk.At(Nth(i)), drive) {
          all, ok := JoinMount(Nth(i), all, start);
          if !ok {
            return;
          }
        }
      }
    }

    // Points the live folders at the target: the old folders are renamed aside
    // and the mount units bind the copies on them. The undos pushed, failed or
    // not, take the disk back to where it was.
    method SwitchMounts() returns (us: seq<Undo>, ok: bool)
      requires Valid() && way == ToFolder && drive
      requires Tracked() ==> saved.phase == Switching
      requires ReadyForFolder(home.containerd, disk.containerd) && ReadyForFolder(home.docker, disk.docker)
      modifies `disk, `up
      ensures InSwitch(us, old(disk)) && OnlyDisk()
      ensures calm && old(up) && !Stray(way, home, old(disk)) ==> ok
      ensures ok ==> up && SwitchedToFolder(home.containerd, old(disk).containerd, disk.containerd)
      ensures ok ==> SwitchedToFolder(home.docker, old(disk).docker, disk.docker)
    {
      us, ok := WriteSwitch();
      if ok {
        ok := Try(); // daemon-reload
      }
      if ok {
        us, ok := MountSwitch(us, old(disk));
      }
    }

    // --- the switch back to the default place ---

    // The mount of an area taken away, with its unit and drop-in.
    method TakeUnitsAway(a: Area) returns (stopped: bool)
      modifies `disk, `up
      ensures OnlyDisk() && (calm && old(up) ==> stopped)
      ensures disk == old(disk).With(a, disk.At(a))
      ensures if stopped then UnitsTaken(old(disk).At(a), disk.At(a)) else disk.At(a) == old(disk).At(a)
    {
      stopped := StopUnit(a);
      if stopped {
        var disabled := SetEnabled(a, false);
        var unitGone := RestoreUnit(a, NoUnit);
        var dropGone := RestoreDropIn(a, false);
      }
    }

    // The copy made next to the live folder takes its place.
    method BringIncoming(a: Area) returns (ok: bool)
      modifies `disk, `up
      ensures OnlyDisk()
      ensures ok ==> up
      ensures calm && old(up) && CanRemoveLive(old(disk).At(a)) && old(disk).At(a).incoming.Dir? ==> ok
      ensures disk == old(disk).With(a, disk.At(a))
      ensures IncomingBrought(old(disk).At(a), disk.At(a), ok)
    {
      if disk.At(a).live.Missing? {
        return false;
      }
      ok := RemoveLive(a);
      if ok {
        ok := Rename(a, Incoming, Live);
        if !ok {
          var made := MakeLive(a);
        }
      }
    }

    // One area leaves the folder: its mount goes, and the copy comes in.
    method LeaveArea(a: Area) returns (pushed: seq<Undo>, ok: bool, ghost mid: Folders)
      modifies `disk, `up
      ensures OnlyDisk()
      ensures ok ==> up
      ensures calm && old(up) && old(disk).At(a).live == Dir(Made, true) && old(disk).At(a).incoming.Dir? ==> ok
      ensures disk == old(disk).With(a, disk.At(a))
      ensures AreaLeaving(a, old(disk).At(a), mid, disk.At(a), pushed, ok)
    {
      pushed := [];
      var prevUnit, prevDrop := disk.At(a).unit, disk.At(a).dropIn;
      ok := TakeUnitsAway(a);
      mid := disk.At(a);
      if ok {
        var taken := [MountAgain(a), EnableAgain(a), UnitsBack(a, prevUnit, prevDrop)];
        pushed, ok := BringPushed(a, taken);
      }
    }

    method BringPushed(a: Area, taken: seq<Undo>) returns (pushed: seq<Undo>, ok: bool)
      modifies `disk, `up
      ensures OnlyDisk()
      ensures ok ==> up
      ensures calm && old(up) && CanRemoveLive(old(disk).At(a)) && old(disk).At(a).incoming.Dir? ==> ok
      ensures disk == old(disk).With(a, disk.At(a))
      ensures IncomingBrought(old(disk).At(a), disk.At(a), ok)
      ensures pushed == taken + if ok then [IncomingBack(a)] else []
    {
      ok := BringIncoming(a);
      pushed := if ok then taken + [IncomingBack(a)] else taken;
    }

    // One area joins the switch back, its undos pushed on the others'.
    method JoinLeave(a: Area, us: seq<Undo>, ghost start: Disk) returns (all: seq<Undo>, ok: bool)
      requires InSwitch(us, start) && way == ToDefault && home.At(a) == InFar
      requires Tracked() ==> saved.phase == Switching && saved.offered == {}
      requires ReadyForDefault(home.At(a), disk.At(a)) && disk.At(a).incoming.Dir?
      requires forall u <- us :: u.a != a
      modifies `disk, `up
      ensures InSwitch(all, start) && OnlyDisk() && disk == old(disk).With(a, disk.At(a))
      ensures calm && old(up) ==> ok
      ensures old(CopiesKept()) ==> CopiesKept()
      ensures us <= all && forall u <- all :: u in us || u.a == a
      ensures ok ==> up && SwitchedToDefault(old(disk).At(a), disk.At(a), a, all)
    {
      var pushed;
      ghost var mid;
      pushed, ok, mid := LeaveArea(a);
      AreaLeavingFine(a, old(disk).At(a), mid, disk.At(a), pushed, ok, saved, Tracked(), drive);
      MendingPushLeaving(home, old(disk), mid, disk, a, us, pushed, ok);
      UndoableLeaving(home, old(disk), mid, disk, a, us, pushed, ok);
      LeavingJoins(start, old(disk), mid, disk, a, us, pushed, ok);
      all := us + pushed;
    }

    // Takes the mounts away and puts the copies in their place; the undos
    // pushed, failed or not, can run, and take the disk back to where it was.
    method SwitchToDefault() returns (us: seq<Undo>, ok: bool)
      requires Valid() && way == ToDefault
      requires Tracked() ==> saved.phase == Switching && saved.offered == {}
      requires ReadyForDefault(home.containerd, disk.containerd) && ReadyForDefault(home.docker, disk.docker)
      modifies `disk, `up
      ensures InSwitch(us, old(disk)) && OnlyDisk() && CopiesKept() && (calm && old(up) ==> ok)
      ensures ok ==> up && SwitchedToDefault(old(disk).containerd, disk.containerd, Containerd, us)
      ensures ok ==> SwitchedToDefault(old(disk).docker, disk.docker, Docker, us)
    {
      us, ok := LeaveAreas();
      if ok {
        ok := Try(); // daemon-reload
      }
    }

    method LeaveAreas() returns (us: seq<Undo>, ok: bool)
      requires Valid() && way == ToDefault
      requires Tracked() ==> saved.phase == Switching && saved.offered == {}
      requires ReadyForDefault(home.containerd, disk.containerd) && ReadyForDefault(home.docker, disk.docker)
      modifies `disk, `up
      ensures InSwitch(us, old(disk)) && OnlyDisk() && CopiesKept() && (calm && old(up) ==> ok)
      ensures ok ==> LeftUpTo(old(disk), disk, us, 2)
    {
      us, ok := [], true;
      NothingLeft(home, disk);
      for i := 0 to 2
        invariant InSwitch(us, old(disk)) && OnlyDisk() && CopiesKept() && (calm && old(up) ==> up && ok)
        invariant LeftUpTo(old(disk), disk, us, i)
      {
        us, ok := LeaveNext(i, i + 1, us, old(disk));
        if !ok {
          return;
        }
      }
    }

    method LeaveNext(i: nat, ghost next: nat, us: seq<Undo>, ghost start: Disk) returns (all: seq<Undo>, ok: bool)
      requires i < 2 && next == i + 1 && InSwitch(us, start) && CopiesKept() && way == ToDefault
      requires Tracked() ==> saved.phase == Switching && saved.offered == {}
      requires ReadyForDefault(home.At(Nth(i)), start.At(Nth(i))) && LeftUpTo(start, disk, us, i)
      modifies `disk, `up
      ensures InSwitch(all, start) && OnlyDisk() && CopiesKept() && (calm && old(up) ==> ok)
      ensures ok ==> LeftUpTo(start, disk, all, next)
    {
      all, ok := us, true;
      if disk.At(Nth(i)).incoming.Dir? {
        all, ok := JoinLeave(Nth(i), us, start);
      }
    }

    // --- the undo ---

    // The folder set aside comes back, unless the mount over it would not stop.
    method PutFoldersBack(a: Area) returns (ok: bool)
      modifies `disk, `up
      ensures OnlyDisk() && disk == old(disk).With(a, disk.At(a))
      ensures calm && old(up) && !stuck.At(a) && CanUndo(FoldersBack(a), old(disk).At(a), drive) ==> ok
      ensures ok ==> CanUndo(FoldersBack(a), old(disk).At(a), drive)
      ensures UndoStepped(FoldersBack(a), old(disk).At(a), disk.At(a), stuck.At(a), ok)
    {
      ok := false;
      if !stuck.At(a) {
        ok := RemoveLive(a);
        if ok {
          ok := Rename(a, Aside, Live);
        }
      }
    }

    method PutUnitsBack(a: Area, prevUnit: UnitFile, prevDrop: bool) returns (ok: bool)
      modifies `disk, `up
      ensures OnlyDisk() && disk == old(disk).With(a, disk.At(a))
      ensures calm && old(up) ==> ok
      ensures UndoStepped(UnitsBack(a, prevUnit, prevDrop), old(disk).At(a), disk.At(a), stuck.At(a), ok)
    {
      ok := true;
      if !stuck.At(a) {
        ok := RestoreBoth(a, prevUnit, prevDrop);
      }
    }

    // The mount stopped and disabled: one that will not stop marks its area.
    method UnmountUndo(a: Area) returns (ok: bool)
      modifies `disk, `up, `stuck
      ensures OnlyUndone()
      ensures disk == old(disk).With(a, disk.At(a))
      ensures calm && old(up) ==> ok
      ensures UndoStepped(Unmount(a), old(disk).At(a), disk.At(a), old(stuck).At(a), ok)
      ensures stuck == StuckAfter(Unmount(a), ok, old(stuck))
    {
      ok := StopUnit(a);
      if ok {
        var disabled := SetEnabled(a, false);
      } else {
        stuck := stuck.With(a, true);
      }
    }

    method PutIncomingBack(a: Area) returns (ok: bool)
      modifies `disk, `up
      ensures OnlyDisk() && disk == old(disk).With(a, disk.At(a))
      ensures calm && old(up) && CanUndo(IncomingBack(a), old(disk).At(a), drive) ==> ok
      ensures ok ==> CanUndo(IncomingBack(a), old(disk).At(a), drive)
      ensures UndoStepped(IncomingBack(a), old(disk).At(a), disk.At(a), stuck.At(a), ok)
    {
      ok := Rename(a, Live, Incoming);
      if ok {
        ok := MakeLive(a);
      }
    }

    // systemctl enable: there must be a unit.
    method EnableOnceMore(a: Area) returns (ok: bool)
      modifies `disk, `up
      ensures OnlyDisk() && disk == old(disk).With(a, disk.At(a))
      ensures calm && old(up) && CanUndo(EnableAgain(a), old(disk).At(a), drive) ==> ok
      ensures ok ==> CanUndo(EnableAgain(a), old(disk).At(a), drive)
      ensures UndoStepped(EnableAgain(a), old(disk).At(a), disk.At(a), stuck.At(a), ok)
    {
      if disk.At(a).unit == NoUnit {
        return false;
      }
      ok := SetEnabled(a, true);
    }

    // One undo: the closure the switch pushed.
    method UndoOne(u: Undo) returns (ok: bool)
      modifies `disk, `up, `stuck
      ensures OnlyUndone()
      ensures disk == old(disk).With(u.a, disk.At(u.a))
      ensures UndoStepped(u, old(disk).At(u.a), disk.At(u.a), old(stuck).At(u.a), ok)
      ensures stuck == StuckAfter(u, ok, old(stuck))
      ensures calm && old(up) && !old(stuck).At(u.a) && CanUndo(u, old(disk).At(u.a), drive) ==> ok
      ensures ok && !old(stuck).At(u.a) ==> CanUndo(u, old(disk).At(u.a), drive)
      ensures u.MountAgain? && ok ==> CanMount(old(disk).At(u.a), drive)
    {
      match u {
        case FoldersBack(a) => ok := PutFoldersBack(a);
        case UnitsBack(a, prevUnit, prevDrop) => ok := PutUnitsBack(a, prevUnit, prevDrop);
        case Unmount(a) => ok := UnmountUndo(a);
        case MountAgain(a) => ok := StartUnit(a);
        case EnableAgain(a) => ok := EnableOnceMore(a);
        case IncomingBack(a) => ok := PutIncomingBack(a);
      }
    }

    // The newest of the undos left, run: what the others need still holds.
    method UndoNewest(us: seq<Undo>) returns (ok: bool)
      requires us != [] && Valid() && StillUndoable(way, home, disk, us, stuck)
      requires Tracked() ==> saved.phase == Switching && saved.undoing && saved.offered == {}
      modifies `disk, `up, `stuck
      ensures Valid() && OnlyUndone() && Fars(disk) == Fars(old(disk))
      ensures disk == old(disk).With(us[|us| - 1].a, disk.At(us[|us| - 1].a))
      ensures UndoStepped(us[|us| - 1], old(disk).At(us[|us| - 1].a), disk.At(us[|us| - 1].a),
          old(stuck).At(us[|us| - 1].a), ok)
      ensures calm && old(up) && !old(stuck).At(us[|us| - 1].a) ==>
          CanUndo(us[|us| - 1], old(disk).At(us[|us| - 1].a), drive) ==> ok
      ensures ok && !old(stuck).At(us[|us| - 1].a) ==> CanUndo(us[|us| - 1], old(disk).At(us[|us| - 1].a), drive)
      ensures old(CopiesKept()) ==> CopiesKept()
      ensures stuck == StuckAfter(us[|us| - 1], ok, old(stuck))
    {
      var u := us[|us| - 1];
      NewestCanRun(way, home, disk, us, stuck);
      ok := UndoOne(u);
      UndoSteppedFine(way, home.At(u.a), u, old(disk).At(u.a), disk.At(u.a), old(stuck).At(u.a), ok, saved,
          Tracked(), drive);
    }

    // While none failed, what is left to run would take the disk where all of
    // them would have, and can run if they could; smooth: they could, with no step
    // failing.
    ghost predicate OnCourse(us: seq<Undo>, i: nat, start: Disk, ok: bool, smooth: bool)
      requires i <= |us|
      reads `disk, `stuck, `up, `calm, `drive
    {
      && (ok ==> stuck == Pair(false, false) && Same(Undone(disk, us[..i]), Undone(start, us)))
      && (ok ==> (Runs(disk, us[..i], drive) <==> Runs(start, us, drive)))
      && (smooth ==> ok && up && calm && Runs(start, us, drive))
    }

    // With no step failing, what is left to run takes every area of a way back to
    // where it was mounted.
    ghost predicate OnTheMend(us: seq<Undo>, mends: bool)
      reads `disk, `up, `calm, `drive
    {
      mends ==> calm && up && drive && way == ToDefault && Mending(way, home, disk, us)
    }

    method UndoStep(us: seq<Undo>, i: nat, ghost start: Disk, ok: bool, ghost smooth: bool, ghost mends: bool)
      returns (still: bool)
      requires i < |us| && InUndo(us, i + 1, start) && OnCourse(us, i + 1, start, ok, smooth)
      requires OnTheMend(us[..i + 1], mends)
      requires Tracked() ==> saved.phase == Switching && saved.undoing && saved.offered == {}
      modifies `disk, `up, `stuck
      ensures InUndo(us, i, start) && OnlyUndone() && Fars(disk) == Fars(old(disk))
      ensures old(CopiesKept()) ==> CopiesKept()
      ensures OnCourse(us, i, start, still, smooth) && OnTheMend(us[..i], mends)
    {
      ghost var left, rest := us[..i + 1], us[..i];
      assert left[..i] == rest && left == rest + [us[i]];
      NewestCanRun(way, home, disk, left, stuck);
      var done := UndoNewest(us[..i + 1]);
      UndoStepKeeps(way, home, old(disk), disk, left, old(stuck), done);
      LeftAloneStep(us, i, start, old(disk), disk, old(stuck), done, way);
      still := ok && done;
      if still {
        SteppedUndone(old(disk), disk, left, rest, us[i]);
      }
      if mends {
        MendStep(home, old(disk), disk, left, rest, us[i], done, drive);
      }
    }

    method RunUndos(us: seq<Undo>, ghost smooth: bool, ghost mends: bool) returns (ok: bool)
      requires InUndo(us, |us|, disk) && OnCourse(us, |us|, disk, true, smooth) && OnTheMend(us, mends)
      requires Tracked() ==> saved.phase == Switching && saved.undoing && saved.offered == {}
      modifies `disk, `up, `stuck
      ensures InUndo(us, 0, old(disk)) && OnlyUndone() && Fars(disk) == Fars(old(disk))
      ensures old(CopiesKept()) ==> CopiesKept()
      ensures OnCourse(us, 0, old(disk), ok, smooth) && OnTheMend([], mends)
    {
      ok := true;
      assert us[..|us|] == us;
      for i := |us| downto 0
        invariant InUndo(us, i, old(disk)) && Fars(disk) == Fars(old(disk))
        invariant (up ==> old(up)) && (calm && old(up) ==> up)
        invariant old(CopiesKept()) ==> CopiesKept()
        invariant OnCourse(us, i, old(disk), ok, smooth) && OnTheMend(us[..i], mends)
      {
        ok := UndoStep(us, i, old(disk), ok, smooth, mends);
      }
      assert us[..0] == [];
    }

    // Runs the undos newest first, all of them. When none failed the disk is
    // where the switch found it, and, when no step fails, none fails exactly if
    // each can run; an area whose mount would not stop is left as it was found,
    // wholly switched. On a way back Docker is on what it had once no step failed,
    // whether each could run or not, and a copy of it is never lost.
    method UndoAll(us: seq<Undo>) returns (ok: bool)
      requires Valid() && Undoable(way, home, disk, us)
      requires Tracked() ==> saved.phase == Switching && saved.undoing && saved.offered == {}
      modifies `disk, `up, `stuck
      ensures Valid() && OnlyUndone() && Fars(disk) == Fars(old(disk))
      ensures ok ==> Same(disk, Undone(old(disk), us)) && Runs(old(disk), us, drive)
      ensures calm && old(up) && Runs(old(disk), us, drive) ==> ok
      ensures calm && old(up) && drive && way == ToDefault && Mending(way, home, old(disk), us) ==> AllAtHome()
      ensures old(CopiesKept()) ==> CopiesKept()
      ensures forall a :: stuck.At(a) ==> View(disk.At(a)) == View(old(disk).At(a))
    {
      stuck := Pair(false, false);
      assert us[..|us|] == us && us[|us|..] == [];
      ghost var mends := calm && up && drive && way == ToDefault && Mending(way, home, disk, us);
      ok := RunUndos(us, calm && up && Runs(disk, us, drive), mends);
      assert us[..0] == [];
      if mends {
        MendedHome(way, home, disk);
      }
    }

    // --- the move ---

    // One area copied, if it is there to copy and the move moves it.
    method CopyArea(a: Area) returns (tried: bool, ok: bool)
      requires Valid() && Fits(way, home.At(a), disk.At(a))
      requires Tracked() ==> saved.offered == {} && saved.phase == Copying
      modifies `disk, `up
      ensures Valid() && OnlyDisk() && disk == old(disk).With(a, disk.At(a)) && (calm && old(up) ==> ok)
      ensures SlotOnly(way, old(disk).At(a), disk.At(a))
      ensures !tried ==> disk == old(disk)
      ensures tried <==> Moves(way, home.At(a))
      ensures ok ==> CopiedArea(way, home.At(a), old(disk).At(a), disk.At(a))
    {
      var f := disk.At(a);
      tried, ok := false, true;
      if Shown(f).Missing? || (way == ToDefault && f.unit == NoUnit) {
        return;
      }
      tried := true;
      ok := Copy(a);
      CopyMadeFine(way, home.At(a), f, disk.At(a), ok, a, saved, Tracked(), drive);
    }

    // The copies, up to the first that fails.
    method CopyAreas() returns (copied: seq<Area>, ok: bool)
      requires Valid() && Fits(way, home.containerd, disk.containerd) && Fits(way, home.docker, disk.docker)
      requires Tracked() ==> saved.offered == {} && saved.phase == Copying
      modifies `disk, `up
      ensures Valid() && OnlyDisk() && (calm && old(up) ==> ok)
      ensures forall a <- copied :: Moves(way, home.At(a))
      ensures CopiesOnly(way, home, old(disk), disk)
      ensures ok ==> CopiedUpTo(way, home, old(disk), disk, copied, 2)
    {
      copied, ok := [], true;
      for i := 0 to 2
        invariant Valid() && OnlyDisk() && (calm && old(up) ==> up && ok)
        invariant CopiedUpTo(way, home, old(disk), disk, copied, i)
      {
        copied, ok := CopyNext(i, i + 1, copied, old(disk));
        if !ok {
          return;
        }
      }
      CopiedSlots(way, home, old(disk), disk, disk, copied, 2);
    }

    method CopyNext(i: nat, ghost next: nat, copied: seq<Area>, ghost start: Disk) returns (more: seq<Area>, ok: bool)
      requires Valid() && i < 2 && next == i + 1 && CopiedUpTo(way, home, start, disk, copied, i)
      requires Fits(way, home.At(Nth(i)), start.At(Nth(i)))
      requires Tracked() ==> saved.offered == {} && saved.phase == Copying
      modifies `disk, `up
      ensures Valid() && OnlyDisk() && (calm && old(up) ==> ok)
      ensures forall a <- more :: Moves(way, home.At(a))
      ensures CopiesOnly(way, home, start, disk)
      ensures ok ==> CopiedUpTo(way, home, start, disk, more, next)
    {
      var tried;
      tried, ok := CopyArea(Nth(i));
      more := if tried then copied + [Nth(i)] else copied;
      CopiedSlots(way, home, start, old(disk), disk, copied, i);
      if ok {
        CopiedStep(way, home, start, old(disk), disk, copied, more, i, next);
      }
    }

    method FlushArea(a: Area) returns (ok: bool)
      requires Valid() && Moves(way, home.At(a))
      requires way == ToFolder ==> disk.At(a).unit == NoUnit
      requires Tracked() ==> saved.offered == {} && saved.phase == Copying
      modifies `disk, `up
      ensures Valid() && OnlyDisk() && disk == old(disk).With(a, disk.At(a)) && (calm && old(up) ==> ok)
      ensures FlushedArea(way, old(disk).At(a), disk.At(a), true, ok)
    {
      ok := Flush(a);
      SlotFine(way, home.At(a), old(disk).At(a), disk.At(a), a, saved, Tracked(), drive);
    }

    // sync -f of every copy, up to the first that fails.
    method FlushCopies(copied: seq<Area>) returns (ok: bool)
      requires Valid() && forall a <- copied ::
          Moves(way, home.At(a)) && (way == ToFolder ==> disk.At(a).unit == NoUnit)
      requires Tracked() ==> saved.offered == {} && saved.phase == Copying
      modifies `disk, `up
      ensures Valid() && OnlyDisk() && (calm && old(up) ==> ok)
      ensures FlushedUpTo(way, old(disk), disk, copied, if ok then |copied| else 0)
    {
      ok := true;
      for i := 0 to |copied|
        invariant Valid() && OnlyDisk() && ok
        invariant FlushedUpTo(way, old(disk), disk, copied, i)
        invariant forall a <- copied :: way == ToFolder ==> disk.At(a).unit == NoUnit
      {
        ghost var was := disk;
        ok := FlushArea(copied[i]);
        FlushedStep(way, old(disk), was, disk, copied, i, ok);
        if !ok {
          return;
        }
      }
    }

    // removeAll of one copy: what fails to go stays.
    method RemoveCopy(a: Area)
      requires Valid() && Moves(way, home.At(a))
      requires way == ToFolder ==> disk.containerd.unit == NoUnit && disk.docker.unit == NoUnit
      requires Tracked() ==> saved.offered == {} && (saved.phase == Switching && way == ToDefault ==> saved.undoing)
      modifies `disk, `up
      ensures Valid() && OnlyDisk() && disk == old(disk).With(a, disk.At(a))
      ensures calm && old(up) && drive ==> Get(disk.At(a), CopySlot(way)).Missing?
      ensures SlotOnly(way, old(disk).At(a), disk.At(a))
    {
      var gone := RemoveTree(a, CopySlot(way));
      SlotFine(way, home.At(a), old(disk).At(a), disk.At(a), a, saved, Tracked(), drive);
    }

    method RemoveCopies(copied: seq<Area>)
      requires Valid() && forall a <- copied :: Moves(way, home.At(a))
      requires way == ToFolder ==> disk.containerd.unit == NoUnit && disk.docker.unit == NoUnit
      requires Tracked() ==> saved.offered == {} && (saved.phase == Switching && way == ToDefault ==> saved.undoing)
      modifies `disk, `up
      ensures Valid() && OnlyDisk() && CopiesOnly(way, home, old(disk), disk)
      ensures calm && old(up) && drive ==> CopiesGone(way, disk, copied)
    {
      for i := 0 to |copied|
        invariant Valid() && OnlyDisk() && CopiesOnly(way, home, old(disk), disk)
        invariant calm && old(up) && drive ==> CopiesGone(way, disk, copied[..i])
      {
        ghost var was := disk;
        CopiesOnlyUnits(way, home, old(disk), disk);
        RemoveCopy(copied[i]);
        RemovedMore(way, home, old(disk), was, disk, copied, i, i + 1);
      }
      assert copied[..|copied|] == copied;
    }

    // --- ends ---

    // Docker asked to run, and found running on what it had: when it answers,
    // its services run.
    method StartAndVerify() returns (ok: bool)
      requires Valid()
      modifies `disk, `up, `serving
      ensures Valid() && OnlyServed()
      ensures (ok ==> up) && (calm && old(up) ==> ok)
    {
      StartServices();
      ok := Try();
    }

    // The switch undone and its copies removed; or nothing is deleted.
    method PutBackOrStay(us: seq<Undo>, copied: seq<Area>) returns (back: bool)
      requires Valid() && MayUndo(us, copied)
      requires Tracked() ==> saved == State(Switching, true, {})
      modifies `disk, `up, `stuck
      ensures Valid() && OnlyUndone()
      ensures UndoEnded(way, home, old(disk), us, copied, drive, calm && old(up), back, disk, disk)
      ensures !back ==> Fars(disk) == Fars(old(disk))
    {
      ghost var undone := Undone(disk, us);
      back := UndoAll(us);
      if back {
        ClearPutBack(copied, undone);
      }
    }

    // The copies of a switch put back, removed.
    method ClearPutBack(copied: seq<Area>, ghost undone: Disk)
      requires Valid() && Same(disk, undone) && forall a <- copied :: Moves(way, home.At(a))
      requires GivesBack(way, home.containerd, undone.containerd) && GivesBack(way, home.docker, undone.docker)
      requires Tracked() ==> saved == State(Switching, true, {})
      modifies `disk, `up
      ensures Valid() && OnlyDisk()
      ensures AllAtHome() && PutBackAs(way, undone, disk, disk)
      ensures calm && old(up) && drive ==> CopiesGone(way, disk, copied)
    {
      ghost var now := disk;
      RemoveCopies(copied);
      SlotBackAs(way, home.containerd, undone.containerd, now.containerd, disk.containerd);
      SlotBackAs(way, home.docker, undone.docker, now.docker, disk.docker);
      BackHomeSees(way, home.containerd, disk.containerd);
      BackHomeSees(way, home.docker, disk.docker);
    }

    // The undos give back what the move moves, and it may be undone.
    ghost predicate MayUndo(us: seq<Undo>, copied: seq<Area>)
      reads `disk
    {
      && CopiesKept() && Undoable(way, home, disk, us) && Mending(way, home, disk, us)
      && GivesBack(way, home.containerd, Undone(disk, us).containerd)
      && GivesBack(way, home.docker, Undone(disk, us).docker)
      && forall a <- copied :: Moves(way, home.At(a))
    }


    // Nothing was touched before the undo was on record.
    twostate predicate RecordedFirst()
      reads this
    {
      disk == old(disk) || lost || saved == State(Switching, true, {})
    }

    // That the switch is to be undone, recorded; nothing may go wrong from here on.
    method BeginUndo()
      requires Valid() && up
      requires Tracked() ==> (saved.phase == Starting || saved.phase == Switching) && saved.offered == {}
      modifies `up, `saved, `lost, `calm
      ensures Valid() && (old(calm) ==> calm) && (calm ==> up) && (old(lost) ==> lost)
      ensures up ==> lost || saved == State(Switching, true, {})
      ensures saved == old(saved) || saved == State(Switching, true, {})
    {
      MayCalm();
      Save(State(Switching, true, {}));
    }

    // undoOrSay: the undo recorded; then the switch put back, its copies deleted
    // and Docker started on what it had; when it cannot be put back, nothing is
    // deleted. Where no step fails, it is put back exactly when the undos can run.
    method UndoOrSay(us: seq<Undo>, copied: seq<Area>) returns (r: Outcome, ghost back: Disk)
      requires Valid() && up && MayUndo(us, copied)
      requires Tracked() ==> saved.phase == Switching && saved.offered == {}
      modifies `disk, `up, `stuck, `saved, `lost, `serving, `calm
      ensures Valid() && (up ==> serving) && drive == old(drive) && away == old(away) && (old(calm) ==> calm)
      ensures r == PutBack || r == Stranded || (r == Cut && !up && !calm)
      ensures (old(lost) ==> lost) && (saved == old(saved) || saved == State(Switching, true, {}))
      ensures RecordedFirst() && (up ==> lost || saved == State(Switching, true, {}))
      ensures r == Cut || UndoEnded(way, home, old(disk), us, copied, drive, calm, r == PutBack, back, disk)
    {
      back := disk;
      BeginUndo();
      if up {
        r, back := UndoRecorded(us, copied);
      } else {
        r := Cut;
      }
    }

    // The undo, once it is recorded.
    method UndoRecorded(us: seq<Undo>, copied: seq<Area>) returns (r: Outcome, ghost back: Disk)
      requires Valid() && up && MayUndo(us, copied)
      requires Tracked() ==> saved == State(Switching, true, {})
      modifies `disk, `up, `stuck, `serving
      ensures Valid() && (up ==> serving)
      ensures r == PutBack || r == Stranded
      ensures UndoEnded(way, home, old(disk), us, copied, drive, calm, r == PutBack, back, disk)
    {
      var done := PutBackOrStay(us, copied);
      back := disk;
      StartServices();
      UndoEndedStarted(way, home, old(disk), us, copied, drive, calm, done, back, disk);
      r := if done then PutBack else Stranded;
    }

    // The switch of either way.
    method Switch() returns (us: seq<Undo>, ok: bool)
      requires Valid() && drive
      requires Tracked() ==> saved == State(Switching, false, {})
      requires Ready(way, home.containerd, disk.containerd) && Ready(way, home.docker, disk.docker)
      modifies `disk, `up
      ensures InSwitch(us, old(disk)) && OnlyDisk() && CopiesKept()
      ensures (ok ==> up) && (calm && old(up) && !Stray(way, home, old(disk)) ==> ok)
      ensures ok ==> Switched(way, home.containerd, old(disk).containerd, disk.containerd, Containerd, us)
      ensures ok ==> Switched(way, home.docker, old(disk).docker, disk.docker, Docker, us)
    {
      if way == ToFolder {
        us, ok := SwitchMounts();
        UndoneFars(disk, us);
      } else {
        us, ok := SwitchToDefault();
      }
    }

    // The copies made and flushed.
    method CopyAndFlush() returns (copied: seq<Area>, ok: bool)
      requires Valid() && drive
      requires Tracked() ==> saved == State(Copying, false, {})
      requires Fits(way, home.containerd, disk.containerd) && Fits(way, home.docker, disk.docker)
      modifies `disk, `up
      ensures Valid() && OnlyDisk() && (calm && old(up) ==> ok)
      ensures forall a <- copied :: Moves(way, home.At(a))
      ensures CopiesOnly(way, home, old(disk), disk)
      ensures ok ==> Ready(way, home.containerd, disk.containerd) && Ready(way, home.docker, disk.docker)
    {
      copied, ok := CopyAreas();
      if ok {
        ok := FlushAll(copied, old(disk));
      }
    }

    method FlushAll(copied: seq<Area>, ghost start: Disk) returns (ok: bool)
      requires Valid() && CopiedUpTo(way, home, start, disk, copied, 2)
      requires Tracked() ==> saved == State(Copying, false, {})
      requires Fits(way, home.containerd, start.containerd) && Fits(way, home.docker, start.docker)
      modifies `disk, `up
      ensures Valid() && OnlyDisk() && (calm && old(up) ==> ok)
      ensures CopiesOnly(way, home, start, disk)
      ensures ok ==> Ready(way, home.containerd, disk.containerd) && Ready(way, home.docker, disk.docker)
    {
      ok := FlushCopies(copied);
      CopiedSlots(way, home, start, old(disk), old(disk), copied, 2);
      FlushedCopiesOnly(way, home, old(disk), disk, copied, if ok then |copied| else 0);
      CopiesOnlyThrough(way, home, start, old(disk), disk);
      if ok {
        AllCopiesReady(way, home, start, old(disk), disk, copied);
      }
    }

    // One that fails takes the others with it, as far as they go.
    method MakeCopies() returns (copied: seq<Area>, ok: bool)
      requires Valid() && drive
      requires Tracked() ==> saved == State(Copying, false, {})
      requires Fits(way, home.containerd, disk.containerd) && Fits(way, home.docker, disk.docker)
      modifies `disk, `up, `calm
      ensures Valid() && OnlyDisk() && (old(calm) ==> calm) && (old(calm) && old(up) ==> ok)
      ensures !ok && calm && up ==> CopiesGone(way, disk, copied)
      ensures forall a <- copied :: Moves(way, home.At(a))
      ensures CopiesOnly(way, home, old(disk), disk)
      ensures ok ==> Ready(way, home.containerd, disk.containerd) && Ready(way, home.docker, disk.docker)
    {
      copied, ok := CopyAndFlush();
      if !ok {
        ghost var was := disk;
        ClearCopies(copied);
        CopiesOnlyThrough(way, home, old(disk), was, disk);
      }
    }

    method ClearCopies(copied: seq<Area>)
      requires Valid() && drive && forall a <- copied :: Moves(way, home.At(a))
      requires way == ToFolder ==> disk.containerd.unit == NoUnit && disk.docker.unit == NoUnit
      requires Tracked() ==> saved == State(Copying, false, {})
      modifies `disk, `up, `calm
      ensures Valid() && OnlyDisk() && (calm && up ==> CopiesGone(way, disk, copied))
          && (calm ==> old(calm) || old(up)) && (old(calm) ==> calm)
      ensures CopiesOnly(way, home, old(disk), disk)
    {
      MayCalm();
      RemoveCopies(copied);
    }

    // Docker stopped, the copies made and flushed.
    method StopAndCopy() returns (copied: seq<Area>, ok: bool)
      requires Valid() && drive && (lost || saved == State(Stopping, false, {}))
      requires Fits(way, home.containerd, disk.containerd) && Fits(way, home.docker, disk.docker)
      modifies `disk, `up, `saved, `lost, `serving, `calm
      ensures Valid() && drive == old(drive) && away == old(away) && (up ==> old(up))
      ensures (old(calm) ==> calm) && (old(calm) && old(up) ==> ok && up)
      ensures forall a <- copied :: Moves(way, home.At(a))
      ensures CopiesOnly(way, home, old(disk), disk)
      ensures ok && up ==> Ready(way, home.containerd, disk.containerd) && Ready(way, home.docker, disk.docker)
      ensures ok && up ==> lost || saved == State(Copying, false, {})
      ensures up ==> lost || saved.offered == {}
    {
      copied := [];
      ok := Quiesce();
      CopiesOnlySelf(way, home, disk);
      if ok {
        RecordCopying();
        if up {
          copied, ok := MakeCopies();
        }
      }
    }

    method RecordCopying()
      requires Valid() && up && (lost || saved == State(Stopping, false, {}))
      requires Fits(way, home.containerd, disk.containerd) && Fits(way, home.docker, disk.docker)
      modifies `up, `saved, `lost
      ensures Valid() && (calm ==> up) && (up ==> lost || saved == State(Copying, false, {}))
    {
      Save(State(Copying, false, {}));
    }

    // Before the switch. What fails here leaves the data where it was.
    method Prepare() returns (copied: seq<Area>, ok: bool, ghost back: Disk)
      requires Valid() && up && drive && serving && saved.offered == {}
      requires Fits(way, home.containerd, disk.containerd) && Fits(way, home.docker, disk.docker)
      modifies `disk, `up, `saved, `lost, `serving, `calm
      ensures (old(calm) ==> calm) && (old(calm) ==> ok && up)
      ensures Valid() && drive == old(drive) && away == old(away)
      ensures forall a <- copied :: Moves(way, home.At(a))
      ensures AllAtHome() && PutBackAs(way, old(disk), back, disk) && (ok ==> disk == back)
      ensures CopiesOnly(way, home, old(disk), back)
      ensures up && !ok ==> serving && (lost || saved.offered == {})
      ensures ok && up ==> Ready(way, home.containerd, disk.containerd) && Ready(way, home.docker, disk.docker)
      ensures ok && up ==> lost || saved == State(Copying, false, {})
    {
      var stopped;
      copied, stopped, ok := PrepareCopies();
      back := disk;
      if stopped && !ok {
        StartServices();
      }
      StartedBack(way, home, old(disk), back, disk);
    }

    // The state recorded; Docker stopped, where there is room, and the copies made.
    method PrepareCopies() returns (copied: seq<Area>, stopped: bool, ok: bool)
      requires Valid() && up && drive && serving && saved.offered == {}
      requires Fits(way, home.containerd, disk.containerd) && Fits(way, home.docker, disk.docker)
      modifies `disk, `up, `saved, `lost, `serving, `calm
      ensures (old(calm) ==> calm) && (old(calm) ==> ok && up)
      ensures Valid() && drive == old(drive) && away == old(away) && AllAtHome()
      ensures CopiesOnly(way, home, old(disk), disk)
      ensures forall a <- copied :: Moves(way, home.At(a))
      ensures up ==> (lost || saved.offered == {}) && (stopped || (serving && !ok))
      ensures ok && up ==> Ready(way, home.containerd, disk.containerd) && Ready(way, home.docker, disk.docker)
      ensures ok && up ==> lost || saved == State(Copying, false, {})
    {
      copied, ok := [], false;
      Save(State(Stopping, false, {}));
      stopped := *;
      stopped := stopped || calm;
      if up && stopped {
        copied, ok := StopAndCopy();
      }
      CopiesLeaveHome(way, home.containerd, old(disk).containerd, disk.containerd);
      CopiesLeaveHome(way, home.docker, old(disk).docker, disk.docker);
    }

    // finish: a move that ended well, with what it left to delete.
    method Finish(locatedFar: bool)
      requires Valid() && (Tracked() ==> Standing()) && (up ==> serving)
      modifies `up, `saved, `lost
      ensures Valid() && (up ==> old(up))
      ensures saved == old(saved) || saved == State(Done, false, Offers(way, disk, drive, locatedFar))
      ensures calm && old(up) ==>
          up && saved == State(Done, false, Offers(way, disk, drive, locatedFar)) && lost == old(lost)
      ensures up ==> lost || saved == State(Done, false, Offers(way, disk, drive, locatedFar))
      ensures old(lost) ==> lost
      ensures Tracked() ==> AllServed()
    {
      if Tracked() {
        StandingMayFinish(way, home, disk, Containerd, saved, drive, locatedFar);
        StandingMayFinish(way, home, disk, Docker, saved, drive, locatedFar);
      }
      Save(State(Done, false, Offers(way, disk, drive, locatedFar)));
    }

    // fail: the end of a move that did not work.
    method Fail()
      requires Valid() && (up ==> serving)
      modifies `up, `saved, `lost
      ensures Valid() && (up ==> old(up)) && (calm && old(up) ==> up)
      ensures up ==> lost || saved == State(Failed, false, {})
      ensures old(lost) ==> lost
    {
      Save(State(Failed, false, {}));
    }

    // The switch, recorded, made and checked.
    method SwitchOver() returns (us: seq<Undo>, ok: bool)
      requires Valid() && up && drive && (lost || saved == State(Copying, false, {}))
      requires Ready(way, home.containerd, disk.containerd) && Ready(way, home.docker, disk.docker)
      modifies `disk, `up, `saved, `lost
      ensures Valid() && drive == old(drive) && away == old(away) && serving == old(serving)
      ensures up ==> InSwitch(us, old(disk)) && CopiesKept() && (lost || saved == State(Switching, false, {}))
      ensures (ok ==> up && !Stray(way, home, old(disk))) && (calm && !Stray(way, home, old(disk)) ==> ok)
      ensures calm ==> up
      ensures ok ==> Switched(way, home.containerd, old(disk).containerd, disk.containerd, Containerd, us)
      ensures ok ==> Switched(way, home.docker, old(disk).docker, disk.docker, Docker, us)
    {
      us, ok := [], false;
      RecordSwitching();
      if up {
        us, ok := SwitchAndCheck();
      }
    }

    method RecordSwitching()
      requires Valid() && up && (lost || saved == State(Copying, false, {}))
      requires Ready(way, home.containerd, disk.containerd) && Ready(way, home.docker, disk.docker)
      modifies `up, `saved, `lost
      ensures Valid() && (calm ==> up) && (up ==> lost || saved == State(Switching, false, {}))
    {
      Save(State(Switching, false, {}));
    }

    method SwitchAndCheck() returns (us: seq<Undo>, ok: bool)
      requires Valid() && up && drive
      requires Tracked() ==> saved == State(Switching, false, {})
      requires Ready(way, home.containerd, disk.containerd) && Ready(way, home.docker, disk.docker)
      modifies `disk, `up
      ensures InSwitch(us, old(disk)) && OnlyDisk() && CopiesKept()
      ensures (ok ==> up && !Stray(way, home, old(disk))) && (calm && !Stray(way, home, old(disk)) ==> ok)
      ensures ok ==> Switched(way, home.containerd, old(disk).containerd, disk.containerd, Containerd, us)
      ensures ok ==> Switched(way, home.docker, old(disk).docker, disk.docker, Docker, us)
    {
      us, ok := Switch();
      ok := ok && CheckSwitched(way, disk, drive);
    }

    // Docker did not come back from the new place: that it is to be undone is
    // recorded; then it is stopped there, and the switch undone.
    method BackOut(us: seq<Undo>, copied: seq<Area>) returns (r: Outcome)
      requires Valid() && up && MayUndo(us, copied)
      requires Tracked() ==> saved == State(Starting, false, {})
      modifies `disk, `up, `stuck, `saved, `lost, `serving, `calm
      ensures Valid() && (up ==> serving) && drive == old(drive) && away == old(away) && (old(calm) ==> calm)
      ensures r == PutBack || r == Stranded || (r == Cut && !up && !calm)
      ensures RecordedFirst()
      ensures r == PutBack ==> AllAtHome() && Runs(old(disk), us, drive)
      ensures calm && Runs(old(disk), us, drive) ==> r == PutBack
      ensures r == Stranded ==> CopiesKept() && (calm && drive && way == ToDefault ==> AllAtHome())
    {
      BeginUndo();
      if up {
        r := StopAndUndo(us, copied);
      } else {
        r := Cut;
      }
    }

    method StopAndUndo(us: seq<Undo>, copied: seq<Area>) returns (r: Outcome)
      requires Valid() && up && MayUndo(us, copied)
      requires lost || saved == State(Switching, true, {})
      modifies `disk, `up, `stuck, `saved, `lost, `serving, `calm
      ensures Valid() && (up ==> serving) && drive == old(drive) && away == old(away) && (old(calm) ==> calm)
      ensures r == PutBack || r == Stranded || (r == Cut && !up && !calm)
      ensures lost || saved == State(Switching, true, {})
      ensures r == PutBack ==> AllAtHome() && Runs(old(disk), us, drive)
      ensures calm && Runs(old(disk), us, drive) ==> r == PutBack
      ensures r == Stranded ==> CopiesKept() && (calm && drive && way == ToDefault ==> AllAtHome())
    {
      var quiet := Quiesce();
      if quiet {
        ghost var back;
        r, back := UndoOrSay(us, copied);
      } else {
        StartServices();
        r := Stranded;
      }
    }

    // The switch worked, and is recorded as such.
    method RecordSwitched(us: seq<Undo>, ghost ready: Disk)
      requires InSwitch(us, ready) && up && (lost || saved == State(Switching, false, {}))
      requires Safe(way, home.containerd, ready.containerd) && Safe(way, home.docker, ready.docker)
      requires Ready(way, home.containerd, ready.containerd) && Ready(way, home.docker, ready.docker)
      requires Switched(way, home.containerd, ready.containerd, disk.containerd, Containerd, us)
      requires Switched(way, home.docker, ready.docker, disk.docker, Docker, us)
      modifies `up, `saved, `lost
      ensures drive == old(drive) && away == old(away) && InSwitch(us, ready)
      ensures Valid() && (calm ==> up) && (up ==> lost || saved == State(Starting, false, {}))
    {
      if Tracked() {
        SwitchedMayStart(way, home.containerd, ready.containerd, disk.containerd, Containerd, us, saved, drive);
        SwitchedMayStart(way, home.docker, ready.docker, disk.docker, Docker, us, saved, drive);
      }
      Save(State(Starting, false, {}));
    }

    // The switch worked: Docker starts from the new place, or goes back.
    method StartOver(us: seq<Undo>, copied: seq<Area>, ghost ready: Disk)
        returns (r: Outcome, ghost begun: Disk)
      requires InSwitch(us, ready) && up && drive && (lost || saved == State(Switching, false, {}))
      requires forall a <- copied :: Moves(way, home.At(a))
      requires Safe(way, home.containerd, ready.containerd) && Safe(way, home.docker, ready.docker)
      requires Ready(way, home.containerd, ready.containerd) && Ready(way, home.docker, ready.docker)
      requires Switched(way, home.containerd, ready.containerd, disk.containerd, Containerd, us)
      requires Switched(way, home.docker, ready.docker, disk.docker, Docker, us)
      modifies `disk, `up, `stuck, `saved, `lost, `serving, `calm
      ensures Valid() && (up ==> serving) && drive == old(drive) && away == old(away) && (old(calm) ==> calm)
      ensures r != NothingChanged && (r == Cut ==> !up)
      ensures r == PutBack ==> AllAtHome()
      ensures r == Stranded ==> CopiesKept() && (calm ==> AllAtHome())
      ensures calm && up && r != Finished ==> (r == Stranded <==> Remounted(way, home, begun))
      ensures r == Finished ==> Standing() && (Tracked() ==> saved.phase == Starting)
      ensures old(calm) ==> r == Finished && up
    {
      begun := disk;
      RecordSwitched(us, ready);
      if up {
        r, begun := StartRecorded(us, copied, ready);
      } else {
        r := Cut;
      }
    }

    // The same, once recorded.
    method StartRecorded(us: seq<Undo>, copied: seq<Area>, ghost ready: Disk)
        returns (r: Outcome, ghost begun: Disk)
      requires InSwitch(us, ready) && up && drive && (lost || saved == State(Starting, false, {}))
      requires forall a <- copied :: Moves(way, home.At(a))
      requires Safe(way, home.containerd, ready.containerd) && Safe(way, home.docker, ready.docker)
      requires Ready(way, home.containerd, ready.containerd) && Ready(way, home.docker, ready.docker)
      requires Switched(way, home.containerd, ready.containerd, disk.containerd, Containerd, us)
      requires Switched(way, home.docker, ready.docker, disk.docker, Docker, us)
      modifies `disk, `up, `stuck, `saved, `lost, `serving, `calm
      ensures Valid() && (up ==> serving) && drive == old(drive) && away == old(away) && (old(calm) ==> calm)
      ensures r != NothingChanged && (r == Cut ==> !up)
      ensures r == PutBack ==> AllAtHome()
      ensures r == Stranded ==> CopiesKept() && (calm ==> AllAtHome())
      ensures calm && up && r != Finished ==> (r == Stranded <==> Remounted(way, home, begun))
      ensures r == Finished ==> Standing() && (Tracked() ==> saved.phase == Starting)
      ensures old(calm) ==> r == Finished && up
    {
      ghost var switched := disk;
      var ok := StartAndVerify();
      begun := disk;
      SwitchedStands(way, home.containerd, ready.containerd, switched.containerd, disk.containerd, Containerd, us);
      SwitchedStands(way, home.docker, ready.docker, switched.docker, disk.docker, Docker, us);
      if ok {
        return Finished, begun;
      }
      if !up {
        return Cut, begun;
      }
      StartedMayBackOut(way, home, ready, switched, disk, us, drive);
      r := BackOut(us, copied);
    }

    // From the switch on.
    method Carry(copied: seq<Area>)
        returns (r: Outcome, ghost back: Disk, ghost switched: bool, ghost begun: Disk)
      requires Valid() && up && drive && (lost || saved == State(Copying, false, {}))
      requires Ready(way, home.containerd, disk.containerd) && Ready(way, home.docker, disk.docker)
      requires forall a <- copied :: Moves(way, home.At(a))
      modifies `disk, `up, `stuck, `saved, `lost, `serving, `calm
      ensures Valid() && drive == old(drive) && away == old(away) && (old(calm) ==> calm)
      ensures up ==> serving && r != Cut
      ensures r != NothingChanged
      ensures r == PutBack ==> AllAtHome() && (switched || PutBackAs(way, old(disk), back, disk))
      ensures calm && up && !switched ==> r == PutBack && CopiesGone(way, back, copied)
      ensures r == Stranded ==> CopiesKept() && (calm ==> AllAtHome())
      ensures calm && up && switched && r != Finished ==> (r == Stranded <==> Remounted(way, home, begun))
      ensures r == Finished ==> !Stray(way, home, old(disk))
      ensures r == Finished ==> Standing() && (Tracked() ==> saved.phase == Starting)
      ensures old(calm) && !Stray(way, home, old(disk)) ==> r == Finished && up
    {
      ghost var ready := disk;
      var us, ok := SwitchOver();
      back, switched, begun := disk, ok, disk;
      if !up {
        return Cut, back, switched, begun;
      }
      if ok {
        r, begun := StartOver(us, copied, ready);
      } else {
        ReadyGivesBack(way, home.containerd, ready.containerd);
        ReadyGivesBack(way, home.docker, ready.docker);
        ghost var undone := Undone(disk, us);
        r, back := UndoOrSay(us, copied);
        if r == PutBack {
          CopiesOnlySelf(way, home, ready);
          PutBackThrough(way, home, ready, ready, undone, back, disk);
        }
      }
    }

    // A move that ended well, or did not.
    method End(well: bool)
      requires Valid() && (up ==> serving) && (well && Tracked() ==> saved.phase == Starting)
      modifies `up, `saved, `lost
      ensures Valid() && (calm && old(up) ==> up)
          && (up ==> old(up) && (lost || saved.phase == if well then Done else Failed))
      ensures well && Tracked() ==> AllServed()
    {
      if well {
        Finish(false);
      } else {
        Fail();
      }
    }

    // The move: every step it cannot finish is undone, and what could not be
    // undone is left with the data Docker had and the copy both there. One that
    // ends before Docker was started in the new place leaves the disk as it was,
    // copies aside, but for what Docker wrote since; and it always can be undone
    // there, when no step of the undo fails.
    method Move() returns (r: Outcome, ghost back: Disk, ghost switched: bool, ghost begun: Disk)
      requires Valid() && up && drive && serving && !saved.Busy() && saved.offered == {}
      requires Fits(way, home.containerd, disk.containerd) && Fits(way, home.docker, disk.docker)
      modifies `disk, `up, `stuck, `saved, `lost, `serving, `calm
      ensures Valid() && drive == old(drive) && away == old(away) && (old(calm) ==> calm)
      ensures Intact(disk.containerd, home.containerd) && Intact(disk.docker, home.docker)
      ensures up ==> serving && r != Cut && (lost || saved.phase == if r == Finished then Done else Failed)
      ensures r == NothingChanged || r == PutBack ==>
          AllAtHome() && (switched || PutBackAs(way, old(disk), back, disk))
      ensures r == NothingChanged ==> !switched
      ensures r == Finished ==> !Stray(way, home, old(disk))
      ensures r == Finished ==> Standing() && (Tracked() ==> AllServed())
      ensures old(calm) && !Stray(way, home, old(disk)) ==> r == Finished && up
      ensures r == Stranded ==> CopiesKept() && (calm && up ==> switched && AllAtHome())
      ensures calm && up && switched && r != Finished ==> (r == Stranded <==> Remounted(way, home, begun))
    {
      r, back, switched, begun := Undertake();
      if up {
        End(r == Finished);
      }
    }

    // All of it but the end.
    method Undertake() returns (r: Outcome, ghost back: Disk, ghost switched: bool, ghost begun: Disk)
      requires Valid() && up && drive && serving && !saved.Busy() && saved.offered == {}
      requires Fits(way, home.containerd, disk.containerd) && Fits(way, home.docker, disk.docker)
      modifies `disk, `up, `stuck, `saved, `lost, `serving, `calm
      ensures Valid() && drive == old(drive) && away == old(away) && (old(calm) ==> calm)
      ensures up ==> serving && r != Cut
      ensures r == NothingChanged || r == PutBack ==>
          AllAtHome() && (switched || PutBackAs(way, old(disk), back, disk))
      ensures r == NothingChanged ==> !switched
      ensures r == Finished ==> !Stray(way, home, old(disk))
      ensures r == Finished ==> Standing() && (Tracked() ==> saved.phase == Starting)
      ensures old(calm) && !Stray(way, home, old(disk)) ==> r == Finished && up
      ensures r == Stranded ==> CopiesKept() && (calm && up ==> switched && AllAtHome())
      ensures calm && up && switched && r != Finished ==> (r == Stranded <==> Remounted(way, home, begun))
    {
      var copied, ok;
      copied, ok, back := Prepare();
      switched, begun := false, disk;
      if !up {
        return Cut, back, switched, begun;
      }
      CopiesOnlySelf(way, home, old(disk));
      CopiesOnlyThrough(way, home, old(disk), old(disk), back);
      if ok {
        r, back, switched, begun := CarryOn(copied, old(disk));
      } else {
        r := NothingChanged;
      }
    }

    // The switch, of a move that started from start.
    method CarryOn(copied: seq<Area>, ghost start: Disk)
        returns (r: Outcome, ghost back: Disk, ghost switched: bool, ghost begun: Disk)
      requires Valid() && up && drive && (lost || saved == State(Copying, false, {}))
      requires Ready(way, home.containerd, disk.containerd) && Ready(way, home.docker, disk.docker)
      requires CopiesOnly(way, home, start, disk)
      requires forall a <- copied :: Moves(way, home.At(a))
      modifies `disk, `up, `stuck, `saved, `lost, `serving, `calm
      ensures Valid() && drive == old(drive) && away == old(away) && (old(calm) ==> calm)
      ensures up ==> serving && r != Cut
      ensures r != NothingChanged
      ensures r == PutBack ==> AllAtHome() && (switched || PutBackAs(way, start, back, disk))
      ensures r == Stranded ==> CopiesKept() && (calm && up ==> switched && AllAtHome())
      ensures calm && up && switched && r != Finished ==> (r == Stranded <==> Remounted(way, home, begun))
      ensures r == Finished ==> !Stray(way, home, old(disk))
      ensures r == Finished ==> Standing() && (Tracked() ==> saved.phase == Starting)
      ensures old(calm) && !Stray(way, home, old(disk)) ==> r == Finished && up
    {
      r, back, switched, begun := Carry(copied);
      if r == PutBack && !switched {
        CopiesOnlySelf(way, home, old(disk));
        PutBackThrough(way, home, start, old(disk), old(disk), back, disk);
      }
    }

    // --- recovery ---

    // The machine goes off, and its drives come back or do not.
    method PowerOff() returns (ghost gone: Pair<bool>)
      requires Valid()
      modifies `disk, `drive
      ensures Valid() && (old(AllServed()) ==> AllServed())
      ensures disk == Pair(PowerCut(old(disk).containerd, gone.containerd), PowerCut(old(disk).docker, gone.docker))
    {
      var some: Pair<bool>, back: bool := *, *;
      gone := some;
      PowerCutFine(way, home.containerd, disk.containerd, Containerd, saved, Tracked(), drive, gone.containerd, back);
      PowerCutFine(way, home.docker, disk.docker, Docker, saved, Tracked(), drive, gone.docker, back);
      disk := Pair(PowerCut(disk.containerd, some.containerd), PowerCut(disk.docker, some.docker));
      drive := back;
    }

    // At boot an enabled unit mounts, or fails to.
    method BootMount(a: Area)
      requires Valid()
      modifies `disk
      ensures Valid() && (Tracked() && old(AllServed()) ==> AllServed())
      ensures disk == old(disk) ||
              (old(disk).At(a).enabled && CanMount(old(disk).At(a), drive)
                  && disk == old(disk).With(a, MountedOn(old(disk).At(a))))
    {
      var mounts: bool := *;
      if disk.At(a).enabled && mounts && CanMount(disk.At(a), drive) {
        EnabledNowFine(way, home.At(a), disk.At(a), MountedOn(disk.At(a)), a, saved, Tracked(), drive);
        disk := disk.With(a, MountedOn(disk.At(a)));
      }
    }

    method StartAtBoot()
      requires Valid()
      modifies `disk, `serving
      ensures Valid() && (old(AllServed()) ==> AllServed()) && serving
      ensures disk.containerd == old(disk).containerd || disk.containerd == ServiceStarted(old(disk).containerd, drive)
      ensures disk.docker == old(disk).docker || disk.docker == ServiceStarted(old(disk).docker, drive)
    {
      ServiceStarts(Containerd);
      ServiceStarts(Docker);
      serving := true;
      StartedServed(way, home.containerd, old(disk).containerd, disk.containerd);
      StartedServed(way, home.docker, old(disk).docker, disk.docker);
    }

    // This process starts again, with the machine or alone. At boot what was not
    // flushed may be lost, enabled units mount or fail to, and Docker starts before
    // this process, on whatever the live folders show.
    method Restart() returns (boots: bool, ghost gone: Pair<bool>)
      requires Valid() && !up
      modifies `disk, `drive, `up, `serving
      ensures Valid() && up && (!boots ==> disk == old(disk) && drive == old(drive) && serving == old(serving))
      ensures boots ==> serving && Booted(old(disk).containerd, disk.containerd, gone.containerd, drive)
      ensures boots ==> Booted(old(disk).docker, disk.docker, gone.docker, drive)
      ensures Tracked() && old(AllServed()) ==> AllServed()
    {
      boots, gone := *, Pair(false, false);
      if boots {
        gone := PowerOff();
        BootMount(Containerd);
        BootMount(Docker);
        StartAtBoot();
      }
      up := true;
    }

    // A live folder Docker filled at boot, while its data waits next to it, is
    // set aside and kept.
    method SetAside(a: Area) returns (ok: bool)
      modifies `disk, `up
      ensures OnlyDisk() && disk == old(disk).With(a, disk.At(a)) && (calm && old(up) ==> ok)
      ensures BootSetAside(way, old(disk).At(a), disk.At(a), ok)
    {
      var f := disk.At(a);
      ok := true;
      if !Waiting(way, f) || EmptyOrMissing(Shown(f)) || f.mounted {
        return;
      }
      ok := Try();
      if ok {
        disk := disk.With(a, f.(live := Missing, boots := f.boots + [f.live]));
        ok := Try();
        if ok {
          disk := disk.With(a, f.(live := Dir(Made, true), boots := f.boots + [f.live]));
        }
      }
    }

    // The state a recovery puts right from.
    ghost predicate Recovering()
      reads `disk, `saved, `lost, `away, `drive, `serving
    {
      Valid() && (Tracked() ==> saved.offered == {} && saved.phase in {Stopping, Copying, Switching})
    }

    // No folder filled at boot is where the data goes back to.
    ghost predicate Cleared()
      reads `disk
    {
      ClearedArea(way, disk.containerd) && ClearedArea(way, disk.docker)
    }

    method SetAsideBootFolders() returns (ok: bool)
      requires Recovering()
      modifies `disk, `up
      ensures Recovering() && OnlyDisk() && (ok ==> Cleared()) && (calm && old(up) ==> ok)
      ensures BootSetAside(way, old(disk).containerd, disk.containerd, ok)
      ensures BootSetAside(way, old(disk).docker, disk.docker, ok)
    {
      ok := SetAsideArea(Containerd);
      if ok {
        ok := SetAsideArea(Docker);
      }
    }

    method SetAsideArea(a: Area) returns (ok: bool)
      requires Recovering()
      modifies `disk, `up
      ensures Recovering() && OnlyDisk() && disk == old(disk).With(a, disk.At(a)) && (calm && old(up) ==> ok)
      ensures BootSetAside(way, old(disk).At(a), disk.At(a), ok) && (ok ==> ClearedArea(way, disk.At(a)))
    {
      ok := SetAside(a);
      BootSetAsideFine(way, home.At(a), old(disk).At(a), disk.At(a), ok, a, saved, Tracked(), drive);
    }

    // The unit and the drop-in of an area go; none goes under a mount that
    // would not stop.
    method TakeUnitsOff(a: Area) returns (stopped: bool, ok: bool)
      modifies `disk, `up
      ensures OnlyDisk() && disk == old(disk).With(a, disk.At(a)) && (calm && old(up) ==> ok)
      ensures UnitsGone(old(disk).At(a), disk.At(a), ok) && (ok ==> stopped)
    {
      stopped, ok := true, true;
      if disk.At(a).unit != NoUnit {
        stopped := StopUnit(a);
        if !stopped {
          return stopped, false;
        }
        var disabled := SetEnabled(a, false);
      }
      ok := RestoreBoth(a, NoUnit, false);
    }

    // The folder set aside comes back.
    method FolderBack(a: Area) returns (ok: bool)
      modifies `disk, `up
      ensures OnlyDisk() && disk == old(disk).With(a, disk.At(a))
      ensures ok ==> !InTheWay(old(disk).At(a))
      ensures calm && old(up) && !InTheWay(old(disk).At(a)) && !old(disk).At(a).mounted ==> ok
      ensures FolderBrought(a, old(disk).At(a), disk.At(a), ok)
    {
      ok := true;
      if disk.At(a).aside.Dir? {
        ok := RemoveLive(a);
        if ok {
          ok := Rename(a, Aside, Live);
        }
      }
    }

    method UnitsOff(a: Area) returns (stopped: bool, ok: bool)
      requires Recovering() && way == ToFolder && (Tracked() ==> saved.phase == Switching)
      modifies `disk, `up
      ensures Recovering() && OnlyDisk() && disk == old(disk).With(a, disk.At(a))
      ensures disk.At(a).live == old(disk).At(a).live && disk.At(a).aside == old(disk).At(a).aside
      ensures calm && old(up) ==> ok
      ensures ok ==> stopped && disk.At(a).unit == NoUnit && (Tracked() ==> !disk.At(a).mounted)
    {
      stopped, ok := TakeUnitsOff(a);
      UnitsGoneFine(home.At(a), old(disk).At(a), disk.At(a), ok, a, saved, Tracked(), drive);
    }

    method AreaBackToDefault(a: Area) returns (ok: bool)
      requires Recovering() && way == ToFolder && (Tracked() ==> saved.phase == Switching)
      modifies `disk, `up
      ensures Recovering() && OnlyDisk() && disk == old(disk).With(a, disk.At(a))
      ensures ok ==> !InTheWay(old(disk).At(a))
      ensures calm && old(up) && Tracked() && !InTheWay(old(disk).At(a)) ==> ok
      ensures ok ==> BackInPlace(home.At(a), disk.At(a)) && (Tracked() ==> !disk.At(a).mounted)
    {
      var stopped;
      stopped, ok := UnitsOff(a);
      if stopped {
        var brought := BringBack(a);
        ok := ok && brought;
      }
    }

    method BringBack(a: Area) returns (ok: bool)
      requires Recovering() && way == ToFolder && (Tracked() ==> saved.phase == Switching)
      modifies `disk, `up
      ensures Recovering() && OnlyDisk() && disk == old(disk).With(a, disk.At(a))
      ensures ok ==> !InTheWay(old(disk).At(a))
      ensures calm && old(up) && !InTheWay(old(disk).At(a)) && !old(disk).At(a).mounted ==> ok
      ensures disk.At(a).unit == old(disk).At(a).unit && disk.At(a).mounted == old(disk).At(a).mounted
      ensures ok && disk.At(a).unit == NoUnit ==> BackInPlace(home.At(a), disk.At(a))
    {
      ok := FolderBack(a);
      FolderBroughtFine(home.At(a), old(disk).At(a), disk.At(a), ok, a, saved, Tracked(), drive);
    }

    // A switch from the default place undone, area by area, whatever came of the
    // area before: no unit is left, and what was set aside is live again.
    method BackToDefault() returns (ok: bool)
      requires Recovering() && way == ToFolder && (Tracked() ==> saved.phase == Switching)
      modifies `disk, `up
      ensures Recovering() && OnlyDisk()
      ensures if old(AnyInTheWay()) then !ok else calm && old(up) && Tracked() ==> ok
      ensures ok ==> BackInPlace(home.containerd, disk.containerd) && BackInPlace(home.docker, disk.docker)
      ensures ok && Tracked() ==> !disk.containerd.mounted && !disk.docker.mounted
    {
      ok := AreaBackToDefault(Containerd);
      var docker := AreaBackToDefault(Docker);
      ok := ok && docker;
    }

    // The live folder of an area made ready for its mount; what a switch put
    // in it goes aside, to be deleted.
    method RebindFolder(a: Area) returns (ok: bool)
      modifies `disk, `up
      ensures OnlyDisk() && disk == old(disk).With(a, disk.At(a))
      ensures calm && old(up) && ClearedArea(way, old(disk).At(a)) && way == ToDefault ==> ok
      ensures Rebound(old(disk).At(a), disk.At(a), false)
    {
      ok := true;
      if !EmptyOrMissing(Shown(disk.At(a))) && !disk.At(a).mounted {
        ok := Rename(a, Live, Incoming);
      }
      if ok {
        ok := MakeLive(a);
      }
    }

    method Rebind(a: Area) returns (ok: bool)
      modifies `disk, `up
      ensures OnlyDisk() && disk == old(disk).With(a, disk.At(a))
      ensures calm && old(up) && ClearedArea(way, old(disk).At(a)) && way == ToDefault ==> ok
      ensures Rebound(old(disk).At(a), disk.At(a), ok)
    {
      ok := RebindFolder(a);
      if ok {
        ok := WriteBoth(a);
      }
    }

    // The unit and the drop-in, each whatever becomes of the other.
    method WriteBoth(a: Area) returns (ok: bool)
      modifies `disk, `up
      ensures OnlyDisk() && (calm && old(up) ==> ok)
      ensures disk == old(disk).With(a, old(disk).At(a).(unit := disk.At(a).unit, dropIn := disk.At(a).dropIn))
      ensures disk.At(a).unit == old(disk).At(a).unit || disk.At(a).unit != NoUnit
      ensures ok ==> disk.At(a).unit == BoundUnit && disk.At(a).dropIn
    {
      var unit := WriteUnit(a, BoundUnit);
      var dropIn := WriteDropIn(a);
      ok := unit && dropIn;
    }

    method AreaRebound(a: Area) returns (ok: bool)
      requires Recovering() && way == ToDefault && (Tracked() ==> saved.phase == Switching)
      requires ClearedArea(way, disk.At(a))
      modifies `disk, `up
      ensures Recovering() && OnlyDisk() && disk == old(disk).With(a, disk.At(a))
      ensures calm && old(up) ==> ok
      ensures ok && home.At(a) == InFar && drive ==> disk.At(a).unit == BoundUnit && disk.At(a).dropIn
      ensures !drive ==> disk == old(disk)
    {
      ok := true;
      if FarThere(disk.At(a), drive) {
        ok := Rebind(a);
        ReboundFine(home.At(a), old(disk).At(a), disk.At(a), ok, a, saved, Tracked(), drive);
      }
    }

    method MountArea(a: Area) returns (ok: bool)
      requires Recovering()
      modifies `disk, `up
      ensures Recovering() && OnlyDisk() && disk == old(disk).With(a, disk.At(a))
      ensures calm && old(up) && (FarThere(old(disk).At(a), drive) ==> old(disk).At(a).unit == BoundUnit) ==> ok
      ensures disk.At(a).unit == old(disk).At(a).unit && disk.At(a).dropIn == old(disk).At(a).dropIn
      ensures ok && FarThere(disk.At(a), drive) ==> disk.At(a).mounted
      ensures !drive ==> disk == old(disk)
    {
      ok := true;
      if FarThere(disk.At(a), drive) {
        ok := EnableNow(a);
        EnabledNowFine(way, home.At(a), old(disk).At(a), disk.At(a), a, saved, Tracked(), drive);
      }
    }

    method RebindAreas() returns (ok: bool)
      requires Recovering() && Cleared() && way == ToDefault && (Tracked() ==> saved.phase == Switching)
      modifies `disk, `up
      ensures calm && old(up) ==> ok
      ensures Recovering() && OnlyDisk() && (!drive ==> disk == old(disk))
      ensures ok && drive ==> AllBound()
    {
      ok := AreaRebound(Containerd);
      var docker := AreaRebound(Docker);
      ok := ok && docker;
    }

    method MountAreas() returns (ok: bool)
      requires Recovering()
      modifies `disk, `up
      ensures calm && old(up) && (drive ==> old(AllBound())) && way == ToDefault ==> ok
      ensures Recovering() && OnlyDisk() && (!drive ==> disk == old(disk))
      ensures old(AllBound()) ==> AllBound()
      ensures ok ==> CheckSwitched(ToFolder, disk, drive)
    {
      ok := MountArea(Containerd);
      var docker := MountArea(Docker);
      ok := ok && docker;
    }

    // Every area that was in the folder is still to be mounted from it.
    ghost predicate AllBound()
      reads `disk
    {
      StillBound(home.containerd, disk.containerd) && StillBound(home.docker, disk.docker)
    }

    // A way back cut short, undone: the areas the folder has data of are mounted
    // from it again. With the drive of that folder absent it finds nothing
    // to do and reports no error: the data is back exactly when the drive is
    // there, or when every unit and drop-in had stayed.
    method BackToFolder() returns (ok: bool)
      requires Recovering() && Cleared() && way == ToDefault && saved.phase == Switching
      modifies `disk, `up
      ensures Recovering() && OnlyDisk() && (calm && old(up) ==> ok)
      ensures ok && drive ==> BoundAgain(home.containerd, disk.containerd) && BoundAgain(home.docker, disk.docker)
      ensures !drive ==> disk == old(disk)
      ensures ok ==> (AllAtHome() <==> drive || old(AllBound()))
    {
      ok := RebindAreas();
      var reloaded := Try();
      var mounted := MountAreas();
      ok := ok && reloaded && mounted && CheckSwitched(ToFolder, disk, drive);
      if !drive {
        AbsentHome(home.containerd, disk.containerd);
        AbsentHome(home.docker, disk.docker);
      }
    }

    // One copy of the interrupted move, deleted, unless Docker uses it.
    method DropTree(a: Area) returns (ok: bool)
      modifies `disk, `up
      ensures OnlyDisk() && disk == old(disk).With(a, disk.At(a)) && (calm && old(up) ==> ok)
      ensures Dropped(way, old(disk).At(a), disk.At(a), LocatedFar(old(disk)), drive, ok)
    {
      ok := true;
      if SlotThere(disk.At(a), CopySlot(way), drive) && !InUse(disk.At(a), CopySlot(way), LocatedFar(disk)) {
        ok := RemoveTree(a, CopySlot(way));
      }
    }

    method DropCopy(a: Area) returns (ok: bool)
      requires Recovering() && (Tracked() ==> Droppable(way, home, disk, saved))
      modifies `disk, `up
      ensures calm && old(up) ==> ok
      ensures Recovering() && OnlyDisk() && (Tracked() ==> Droppable(way, home, disk, saved))
      ensures disk == old(disk).With(a, disk.At(a)) && LocatedFar(disk) == LocatedFar(old(disk))
      ensures Dropped(way, old(disk).At(a), disk.At(a), LocatedFar(disk), drive, ok)
    {
      ok := DropTree(a);
      DroppedFine(way, home, old(disk), disk, a, saved, Tracked(), drive, ok);
    }

    method DropCopies() returns (ok: bool)
      requires Recovering() && (Tracked() ==> Droppable(way, home, disk, saved))
      modifies `disk, `up
      ensures Recovering() && OnlyDisk() && (calm && old(up) ==> ok)
      ensures Dropped(way, old(disk).containerd, disk.containerd, LocatedFar(old(disk)), drive, ok)
      ensures Dropped(way, old(disk).docker, disk.docker, LocatedFar(old(disk)), drive, ok)
    {
      ok := DropCopy(Containerd);
      var docker := DropCopy(Docker);
      ok := ok && docker;
    }

    // Stopped before the switch: the copies go, and nothing else changed.
    method DropCutCopies() returns (ok: bool)
      requires Recovering() && saved.phase != Switching
      modifies `disk, `up
      ensures Recovering() && OnlyDisk() && (calm && old(up) ==> ok)
      ensures Tracked() ==> AllAtHome()
    {
      ok := DropCopies();
      if Tracked() {
        CutBeforeSwitchIsHome(way, home.containerd, disk.containerd, Containerd, saved, drive);
        CutBeforeSwitchIsHome(way, home.docker, disk.docker, Docker, saved, drive);
      }
    }

    // Stopped while switching to a folder.
    method BackFromFolder() returns (ok: bool)
      requires Recovering() && way == ToFolder && (Tracked() ==> saved.phase == Switching)
      modifies `disk, `up
      ensures Recovering() && OnlyDisk()
      ensures if old(AnyInTheWay()) then !ok else calm && old(up) && Tracked() ==> ok
      ensures ok && Tracked() ==> AllAtHome()
    {
      ok := BackToDefault();
      if ok {
        ok := DropCopies();
      }
    }

    // The case in which a way back is not put right: its drive absent, and an area
    // not bound any more.
    ghost predicate Adrift()
      reads `disk, `saved, `drive
    {
      way == ToDefault && saved.phase == Switching && !drive && !AllBound()
    }

    // Stopped while switching back to the default place.
    method BackFromDefault() returns (ok: bool)
      requires Recovering() && Cleared() && way == ToDefault && saved.phase == Switching && saved.offered == {}
      modifies `disk, `up, `away
      ensures Recovering() && (up ==> old(up)) && (calm && old(up) ==> ok && up)
      ensures ok ==> (AllAtHome() <==> !old(Adrift()))
      ensures ok && old(Adrift()) ==> away
      ensures away && !old(away) ==> old(Adrift())
      ensures ok && drive ==> !away
    {
      ok := BackToFolder();
      if ok {
        NoteDrive();
        ok := DropCopies();
      }
    }

    // Whether the way back was put right.
    ghost method NoteDrive()
      requires Recovering() && way == ToDefault && saved.phase == Switching && saved.offered == {}
      requires drive ==> BoundAgain(home.containerd, disk.containerd) && BoundAgain(home.docker, disk.docker)
      modifies `away
      ensures Recovering() && (Tracked() ==> Droppable(way, home, disk, saved))
      ensures away == (!drive && (old(away) || !AllBound()))
    {
      away := !drive && (away || !AllBound());
    }

    // What an interrupted move gets when its switch is not kept.
    method PutRight() returns (ok: bool)
      requires Recovering() && saved.Busy() && saved.phase != Starting
      modifies `disk, `up, `serving, `away
      ensures Recovering() && (up ==> old(up)) && (calm && old(up) ==> up)
      ensures ok ==> !Blocked(way, saved, old(disk))
      ensures calm && old(up) && !lost && !Blocked(way, saved, old(disk)) ==> ok
      ensures ok && Tracked() ==> AllAtHome()
      ensures ok && old(Adrift()) ==> away && !AllAtHome()
      ensures away && !old(away) ==> old(Adrift())
      ensures ok && drive && way == ToDefault && saved.phase == Switching ==> !away
    {
      ok := Quiesce();
      if ok {
        ok := ClearTheWay();
      }
      if ok {
        ok := PutBackCleared();
      }
    }

    // What Docker filled at boot, moved out of the way.
    method ClearTheWay() returns (ok: bool)
      requires Recovering()
      modifies `disk, `up
      ensures Recovering() && OnlyDisk() && (calm && old(up) ==> ok)
      ensures ok ==> Cleared() && (AllBound() <==> old(AllBound()))
      ensures ok && way == ToFolder ==> (AnyInTheWay() <==> Buried(old(disk).containerd) || Buried(old(disk).docker))
    {
      ok := SetAsideBootFolders();
      if ok && way == ToFolder {
        SetAsideWay(old(disk).containerd, disk.containerd);
        SetAsideWay(old(disk).docker, disk.docker);
      }
    }

    // The same, with no folder filled at boot in the way.
    method PutBackCleared() returns (ok: bool)
      requires Recovering() && Cleared() && saved.Busy() && saved.phase != Starting
      modifies `disk, `up, `away
      ensures Recovering() && (up ==> old(up)) && (calm && old(up) ==> up)
      ensures ok && way == ToFolder && saved.phase == Switching ==> !old(AnyInTheWay())
      ensures calm && old(up) && !lost && (way == ToFolder && saved.phase == Switching ==> !old(AnyInTheWay())) ==> ok
      ensures ok && Tracked() ==> AllAtHome()
      ensures ok && old(Adrift()) ==> away && !AllAtHome()
      ensures away && !old(away) ==> old(Adrift())
      ensures ok && drive && way == ToDefault && saved.phase == Switching ==> !away
    {
      if saved.phase != Switching {
        ok := DropCutCopies();
      } else if way == ToFolder {
        ok := BackFromFolder();
      } else {
        ok := BackFromDefault();
      }
    }

    ghost predicate AnyInTheWay()
      reads `disk
    {
      InTheWay(disk.containerd) || InTheWay(disk.docker)
    }

    method EnableUnit(a: Area) returns (ok: bool)
      requires Valid() && (Tracked() ==> Standing())
      modifies `disk, `up
      ensures Valid() && (Tracked() ==> Standing()) && OnlyDisk() && disk == old(disk).With(a, disk.At(a))
      ensures calm && old(up) && (FarThere(old(disk).At(a), drive) ==> old(disk).At(a).unit == BoundUnit) ==> ok
    {
      ok := true;
      if FarThere(disk.At(a), drive) {
        ok := EnableNow(a);
        EnabledNowFine(way, home.At(a), old(disk).At(a), disk.At(a), a, saved, Tracked(), drive);
      }
    }

    // The units of a switch to a folder that is kept; there are none on the way back.
    method EnableUnits() returns (ok: bool)
      requires Valid() && (Tracked() ==> Standing())
      modifies `disk, `up
      ensures Valid() && (Tracked() ==> Standing()) && OnlyDisk()
      ensures calm && old(up) && SwitchDone(way, old(disk), drive) ==> ok
    {
      ok := true;
      if way == ToFolder {
        ok := EnableUnit(Containerd);
        var docker := EnableUnit(Docker);
        ok := ok && docker;
      }
    }

    // Docker runs from the new place. What it had before is not offered for
    // deletion when it could not be checked there: listed by the first write, it is
    // unlisted by a second, and stays listed exactly when only the first one reached
    // the disk, this process stopped in between or the second write lost.
    method KeepSwitch() returns (ok: bool, ghost first: State)
      requires Valid() && saved.Busy() && (Tracked() ==> Standing())
      modifies `disk, `up, `saved, `lost, `serving
      ensures Valid() && drive == old(drive) && (old(lost) ==> lost) && (calm && old(up) ==> ok && up)
      ensures up ==> old(up) && serving && (lost || (saved.phase == Done && (!ok ==> saved.offered == {})))
      ensures first == old(saved) || first == State(Done, false, Offers(way, disk, drive, LocatedFar(disk)))
      ensures ok ==> saved == first
      ensures !ok ==> saved == first || saved == State(Done, false, {})
      ensures !ok && saved.offered != {} ==> saved == first && (!up || lost)
      ensures Tracked() ==> AllServed()
    {
      ok := StartAndVerify();
      Finish(LocatedFar(disk));
      first := saved;
      if up && !ok {
        Save(State(Done, false, {}));
      }
    }

    // Deals with a move a stop cut short. A switch that had ended is kept,
    // anything else is put back; either way Docker is asked to run. Where no step
    // fails it ends without error, unless what has to be put back is buried under
    // a mount.
    method Recover() returns (kept: bool, ok: bool)
      requires Valid() && up && saved.Busy() && Moves(way, home.docker)
      modifies `disk, `up, `saved, `lost, `serving, `away
      ensures Valid() && drive == old(drive) && (old(lost) ==> lost) && (calm ==> up)
      ensures kept == Keeps(way, old(saved), old(disk), drive)
      ensures ok && !kept ==> !Blocked(way, old(saved), old(disk))
      ensures calm && !old(lost) && (kept || !Blocked(way, old(saved), old(disk))) ==> ok
      ensures up ==> serving && (lost || saved.phase == if kept then Done else Failed)
      ensures Tracked() ==> if kept then AllServed() else ok ==> AllAtHome()
      ensures away && !old(away) ==> !kept && old(Adrift())
      ensures !kept && ok && old(Adrift()) ==> away
      ensures !kept && ok && drive && way == ToDefault && old(saved.phase == Switching) ==> !away
    {
      kept, ok := Keeps(way, saved, disk, drive), true;
      if kept {
        ok := KeepAsItIs();
      } else {
        ok := PutRight();
        GiveUp();
      }
    }

    // A switch that had ended, its units enabled where nothing was recorded of it.
    method KeepAsItIs() returns (ok: bool)
      requires Valid() && up && saved.Busy() && Moves(way, home.docker) && Keeps(way, saved, disk, drive)
      modifies `disk, `up, `saved, `lost, `serving
      ensures Valid() && drive == old(drive) && (old(lost) ==> lost) && (calm ==> up && ok)
      ensures up ==> serving && (lost || saved.phase == Done)
      ensures Tracked() ==> AllServed()
    {
      ok := true;
      if saved.phase == Switching {
        if Tracked() {
          SwitchDoneStands(way, home, disk, Containerd, saved, drive);
          SwitchDoneStands(way, home, disk, Docker, saved, drive);
        }
        ok := EnableUnits();
      }
      var checked;
      ghost var first;
      checked, first := KeepSwitch();
      ok := ok && checked;
    }

    // Docker started again, and the move recorded as failed.
    method GiveUp()
      requires Valid() && saved.Busy()
      modifies `disk, `up, `saved, `lost, `serving
      ensures Valid() && drive == old(drive) && (old(lost) ==> lost) && (up ==> old(up) && serving)
          && (calm && old(up) ==> up)
      ensures up ==> lost || saved == State(Failed, false, {})
      ensures old(AllAtHome()) ==> AllAtHome()
    {
      StartServices();
      StartedServed(way, home.containerd, old(disk).containerd, disk.containerd);
      StartedServed(way, home.docker, old(disk).docker, disk.docker);
      Fail();
    }

    // --- a whole life ---

    // A stop, and the start after it. `fine`: what ran last ended without an error.
    // found: what the start found. With a move to recover and no step failing since,
    // it ends without error unless what has to be put back is buried.
    method StopAndStart(fine: bool) returns (ok: bool, ghost found: Disk)
      requires Valid() && Moves(way, home.docker)
      requires fine && Tracked() ==> AllServed()
      modifies this
      ensures Valid() && (old(lost) ==> lost)
      ensures ok && Tracked() ==> AllServed()
      ensures up && !lost ==> !saved.Busy()
      ensures RecoveredWell(old(saved), found, ok)
      ensures !old(saved).Busy() ==> ok == fine && up
    {
      calm, up := false, false;
      var boots;
      ghost var gone;
      boots, gone := Restart();
      MayCalm();
      ok, found := fine, disk;
      if saved.Busy() {
        ok := Recovers();
      }
    }

    // What Recover promises of a life.
    method Recovers() returns (ok: bool)
      requires Valid() && up && saved.Busy() && Moves(way, home.docker)
      modifies `disk, `up, `saved, `lost, `serving, `away
      ensures Valid() && (old(lost) ==> lost) && RecoveredWell(old(saved), old(disk), ok)
      ensures ok && Tracked() ==> AllServed()
      ensures up && !lost ==> !saved.Busy()
    {
      var kept;
      kept, ok := Recover();
    }

    // How a start that found a move cut in this state ended.
    ghost predicate RecoveredWell(cut: State, found: Disk, ok: bool)
      reads `calm, `lost, `drive
    {
      cut.Busy() && calm && !lost ==> (ok <==> Keeps(way, cut, found, drive) || !Blocked(way, cut, found))
    }

    // A move, then any number of stops of this process or of the machine, at
    // any step of the move or of a recovery, each followed by a start that
    // recovers what was cut. However it goes, the data Docker had is whole. A
    // process that got to the end has Docker running and no move left to
    // recover, and when what ran last ended without an error Docker runs on
    // what it had or on a complete copy, now and after any boot: unless a write
    // of the state file was lost, or a way back was last put right without its
    // drive when an area was not bound to it any more. The last start, where it
    // had a move to recover and no step failed in it, ended without error, but for
    // a folder buried under a mount.
    method Life(stops: nat) returns (ok: bool, ghost cut: State, ghost found: Disk)
      requires Valid() && up && drive && serving && !saved.Busy() && saved.offered == {}
      requires Fits(way, home.containerd, disk.containerd) && Fits(way, home.docker, disk.docker)
      requires Moves(way, home.docker)
      modifies this
      ensures Valid()
      ensures Intact(disk.containerd, home.containerd) && Intact(disk.docker, home.docker)
      ensures up && !lost ==> serving && !saved.Busy()
      ensures ok && Tracked() ==> AllServed()
      ensures Tracked() && saved.phase == Done ==> AllServed()
      ensures stops > 0 ==> RecoveredWell(cut, found, ok)
    {
      ok := Begin();
      cut, found := saved, disk;
      for i := 0 to stops
        invariant Valid()
        invariant up && !lost ==> !saved.Busy()
        invariant ok && Tracked() ==> AllServed()
        invariant i > 0 ==> RecoveredWell(cut, found, ok)
      {
        cut := saved;
        ok, found := StopAndStart(ok);
      }
    }

    // The move itself; its answer is whether it ended as it should.
    method Begin() returns (ok: bool)
      requires Valid() && up && drive && serving && !saved.Busy() && saved.offered == {}
      requires Fits(way, home.containerd, disk.containerd) && Fits(way, home.docker, disk.docker)
      modifies `disk, `up, `stuck, `saved, `lost, `serving, `calm
      ensures Valid() && (up && !lost ==> !saved.Busy())
      ensures ok && Tracked() ==> AllServed()
    {
      var r;
      ghost var back, switched, begun;
      r, back, switched, begun := Move();
      ok := r != Stranded && r != Cut;
    }

    // DeleteOldCopy: all that is offered, unless any of it is in use; what fails
    // to go stays offered. Nothing else changes, and of an area the recoveries kept
    // track of a complete copy stays. The list in memory is the one in the file.
    method DeleteOldCopy() returns (ok: bool)
      requires Valid() && up && !saved.Busy() && !lost
      modifies `disk, `up, `saved, `lost
      ensures old(OffersUsed()) ==> !ok && disk == old(disk) && saved == old(saved)
      ensures Deleted(Containerd) && Deleted(Docker)
      ensures calm && old(saved).offered != {} && !old(OffersUsed()) ==> ok
      ensures ok ==> forall a <- old(saved).offered :: !SlotThere(disk.At(a), OldSlot(way), drive)
      ensures up && !lost ==> saved.offered <= old(saved).offered
      ensures up && !lost ==> forall a <- old(saved).offered - saved.offered ::
          !SlotThere(disk.At(a), OldSlot(way), drive)
    {
      if saved.offered == {} || OffersUsed() {
        return false;
      }
      var first := DeleteOffered(Containerd);
      var second := DeleteOffered(Docker);
      var kept := (if first then {} else {Containerd}) + if second then {} else {Docker};
      ok := kept == {};
      var wrote := Try();
      if wrote {
        saved := saved.(offered := kept);
      } else if up {
        lost := true;
      }
    }

    method DeleteOffered(a: Area) returns (gone: bool)
      modifies `disk, `up
      ensures OnlyDisk() && disk == old(disk).With(a, disk.At(a))
      ensures OldSlotOnly(way, old(disk).At(a), disk.At(a)) && (calm && old(up) ==> gone)
      ensures a in saved.offered && gone ==> !SlotThere(disk.At(a), OldSlot(way), drive)
      ensures a !in saved.offered ==> gone && disk == old(disk)
    {
      gone := true;
      if a in saved.offered {
        gone := RemoveTree(a, OldSlot(way));
      }
    }

    // What a deletion does to one area.
    twostate predicate Deleted(a: Area)
      reads this
    {
      var f, g := old(disk).At(a), disk.At(a);
      g == f || (&& a in old(saved).offered && !InUse(f, OldSlot(way), LocatedFar(old(disk)))
                 && OldSlotOnly(way, f, g)
                 && ((way == ToDefault && away) || SparesOne(way, g)))
    }

    predicate InUseOf(a: Area)
      reads `disk, `saved
    {
      a in saved.offered && InUse(disk.At(a), OldSlot(way), LocatedFar(disk))
    }

    predicate OffersUsed()
      reads `disk, `saved
    {
      InUseOf(Containerd) || InUseOf(Docker)
    }
  }

  // A switch kept that was not checked, its process stopped between the two
  // writes: what Docker had before stays listed, and no later start unlists it.
  // lived: it was not stopped before the check was over; ok: the check passed.
  method UnverifiedListed() returns (m: Mover, lived: bool, ok: bool)
    ensures m.Valid() && m.Tracked() && m.up
    ensures lived && !ok ==> !m.saved.Busy() && m.saved.offered == {Docker}
  {
    m := Unchecked();
    ok := m.StartAndVerify();
    lived := m.up;
    if lived {
      m.calm := true;
      m.Finish(LocatedFar(m.disk));
    }
    m.calm, m.up := false, false;
    var boots;
    ghost var gone;
    boots, gone := m.Restart();
  }

  // A switch recorded as over, which Docker was never started from.
  method Unchecked() returns (m: Mover)
    ensures fresh(m) && m.Valid() && m.Tracked() && m.up && m.serving && m.Standing() && !m.calm && m.drive
    ensures m.way == ToFolder && m.saved == State(Starting, false, {}) && m.disk.containerd == NoArea
    ensures m.disk.docker.aside == Dir(Original, false) && m.disk.docker.mounted
  {
    var docker := Folders(Dir(Made, true), Dir(Original, false), Missing, Dir(Copied(true, true), false), [],
                          BoundUnit, true, true, true);
    m := new Mover(ToFolder, Pair(NoArea, docker), true, Pair(Nowhere, InLive));
    m.saved := State(Starting, false, {});
  }

  // A recovery in which no step fails, and that cannot put the switch back: docker
  // is mounted over a folder that was filled while it was not. Nothing is lost.
  method BuriedStays() returns (m: Mover, kept: bool, ok: bool)
    ensures m.Valid() && m.calm && m.up && !kept && !ok
    ensures m.lost || m.saved.phase == Failed
    ensures Intact(m.disk.docker, InLive)
  {
    m := Cut();
    m.calm := true;
    kept, ok := m.Recover();
  }

  method Cut() returns (m: Mover)
    ensures fresh(m) && m.Valid() && m.Tracked() && m.up && m.way == ToFolder && m.home == Pair(Nowhere, InLive)
    ensures m.saved == State(Switching, true, {}) && m.disk == Pair(NoArea, BuriedDocker)
  {
    m := new Mover(ToFolder, Pair(NoArea, BuriedDocker), true, Pair(Nowhere, InLive));
    m.saved := State(Switching, true, {});
  }
}
