// What a move of Docker's data can find and leave on the host: the folders of
// the two areas, their mount units and the state file, as values; and the
// predicates every step of a move, of its undo and of its recovery must keep.
module DockerDisk {

  datatype Area = Containerd | Docker

  // The areas in the order the source walks them.
  function Nth(i: nat): Area
    requires i < 2
  {
    if i == 0 then Containerd else Docker
  }

  function Index(a: Area): nat {
    if a == Containerd then 0 else 1
  }

  datatype Pair<T> = Pair(containerd: T, docker: T) {
    function At(a: Area): T {
      if a == Containerd then containerd else docker
    }

    function With(a: Area, v: T): Pair<T> {
      if a == Containerd then this.(containerd := v) else this.(docker := v)
    }
  }

  // What a folder holds: the tree Docker had before the move, a copy of it the
  // move made, or a folder made empty by the move (or by Docker at a boot).
  datatype What = Original | Copied(whole: bool, flushed: bool) | Made

  datatype Tree = Missing | Dir(what: What, empty: bool)

  // A mount unit's file: absent, cut short by a stop (it names no folder), or
  // binding the far folder on the live one.
  datatype UnitFile = NoUnit | CutUnit | BoundUnit

  // One area on the host. `live` is the folder under any mount; `far` is the
  // area's folder in the place the move goes to, or comes from on the way back.
  datatype Folders = Folders(
    live: Tree, aside: Tree, incoming: Tree, far: Tree, boots: seq<Tree>,
    unit: UnitFile, dropIn: bool, enabled: bool, mounted: bool)

  type Disk = Pair<Folders>

  // A move goes from the default place to a folder, or back.
  datatype Way = ToFolder | ToDefault

  // Where the tree Docker had before the move was when it started.
  datatype Home = Nowhere | InLive | InFar

  datatype Phase = Idle | Stopping | Copying | Switching | Starting | Done | Failed

  // The state file: `offered` are the areas whose old data it lists for deletion.
  datatype State = State(phase: Phase, undoing: bool, offered: set<Area>) {
    predicate Busy() {
      phase == Stopping || phase == Copying || phase == Switching || phase == Starting
    }
  }

  datatype Slot = Live | Aside | Incoming | Far

  function Get(f: Folders, s: Slot): Tree {
    match s
    case Live => f.live
    case Aside => f.aside
    case Incoming => f.incoming
    case Far => f.far
  }

  function Put(f: Folders, s: Slot, t: Tree): Folders {
    match s
    case Live => f.(live := t)
    case Aside => f.(aside := t)
    case Incoming => f.(incoming := t)
    case Far => f.(far := t)
  }

  predicate IsOriginal(t: Tree) {
    t.Dir? && t.what == Original
  }

  predicate IsCopy(t: Tree) {
    t.Dir? && t.what.Copied?
  }

  // A complete copy that reached the disk.
  predicate IsGoodCopy(t: Tree) {
    t.Dir? && t.what == Copied(true, true)
  }

  predicate EmptyOrMissing(t: Tree) {
    t.Missing? || t.empty
  }

  // The folder a path walk through the live folder reaches.
  function Shown(f: Folders): Tree {
    if f.mounted then f.far else f.live
  }

  // What Docker runs on whenever it runs: its drop-in makes it wait for the mount.
  function Sees(f: Folders): Tree {
    if f.mounted || (f.dropIn && f.unit == BoundUnit) then f.far else f.live
  }

  // Whether the far folder is visible: not while its drive is absent.
  predicate FarThere(f: Folders, drive: bool) {
    drive && f.far.Dir?
  }

  // rename(2) of a folder: the source exists, the target is absent or an empty
  // folder, and neither is a mount point.
  predicate CanRename(f: Folders, from: Slot, to: Slot) {
    && from != to
    && Get(f, from).Dir?
    && EmptyOrMissing(Get(f, to))
    && (from == Live || to == Live ==> !f.mounted)
  }

  function Renamed(f: Folders, from: Slot, to: Slot): Folders {
    Put(Put(f, to, Get(f, from)), from, Missing)
  }

  predicate CanRemoveLive(f: Folders) {
    f.live.Dir? && f.live.empty && !f.mounted
  }

  // What a mount leaves: systemd makes the mount point when it is not there.
  function MountedOn(f: Folders): Folders {
    f.(mounted := true, live := if f.live.Missing? then Dir(Made, true) else f.live)
  }

  predicate CanMount(f: Folders, drive: bool) {
    f.mounted || (f.unit == BoundUnit && FarThere(f, drive))
  }

  // A service that runs writes into the tree it sees.
  function Written(t: Tree): Tree {
    if t.Missing? then Dir(Made, false) else t.(empty := false)
  }

  // One service starts, at boot or asked to: its drop-in makes it wait for the
  // mount, and without the mount it does not start; then it writes.
  function ServiceStarted(f: Folders, drive: bool): Folders {
    if f.dropIn && f.unit == BoundUnit && !f.mounted then
      if FarThere(f, drive) then MountedOn(f).(far := Written(f.far)) else f
    else if f.mounted then f.(far := Written(f.far))
    else f.(live := Written(f.live))
  }

  // A tree whose removal stopped halfway is nothing any more.
  function Damaged(t: Tree): Tree {
    if t.Missing? then t else t.(what := if t.what.Copied? then Copied(false, false) else Made)
  }

  // --- checks the source reads off the host ---

  // checkSwitched for one area.
  predicate AreaSwitched(way: Way, f: Folders, drive: bool) {
    if way == ToFolder then FarThere(f, drive) ==> f.mounted else !f.mounted
  }

  predicate CheckSwitched(way: Way, d: Disk, drive: bool) {
    AreaSwitched(way, d.containerd, drive) && AreaSwitched(way, d.docker, drive)
  }

  // switchDone for one area.
  predicate AreaDone(way: Way, a: Area, f: Folders, drive: bool) {
    if way == ToDefault then
      f.incoming.Missing? && f.unit == NoUnit && (a == Docker ==> !EmptyOrMissing(Shown(f)))
    else if !FarThere(f, drive) then
      a != Docker && f.aside.Missing?
    else
      f.unit == BoundUnit && f.dropIn
  }

  predicate SwitchDone(way: Way, d: Disk, drive: bool) {
    && AreaDone(way, Containerd, d.containerd, drive)
    && AreaDone(way, Docker, d.docker, drive)
    && CheckSwitched(way, d, drive)
  }

  // location(): the docker unit says where the data is.
  predicate LocatedFar(d: Disk) {
    d.docker.unit == BoundUnit
  }

  // The slot a move copies to, and the slot it leaves the old data in.
  function CopySlot(way: Way): Slot {
    if way == ToFolder then Far else Incoming
  }

  function OldSlot(way: Way): Slot {
    if way == ToFolder then Aside else Far
  }

  predicate OldSlotOnly(way: Way, f: Folders, g: Folders) {
    g == Put(f, OldSlot(way), Get(g, OldSlot(way)))
  }

  predicate SlotThere(f: Folders, s: Slot, drive: bool) {
    if s == Far then FarThere(f, drive) else Get(f, s).Dir?
  }

  // inUse, for the folders a move lists or deletes: the one a live folder is
  // bound to, or any under the location the docker unit names.
  predicate InUse(f: Folders, s: Slot, locatedFar: bool) {
    s == Live || (s == Far && (f.mounted || locatedFar))
  }

  // --- what must hold at every step, hence at every stop ---

  // The tree Docker had is whole somewhere a move or its recovery looks.
  predicate Intact(f: Folders, h: Home) {
    h != Nowhere ==> IsOriginal(f.live) || IsOriginal(f.aside) || IsOriginal(f.far)
  }

  // Its inductive strengthening, whatever the state file says.
  predicate Safe(way: Way, h: Home, f: Folders) {
    && !IsOriginal(f.incoming)
    && (way == ToFolder ==>
          && h != InFar
          && !IsOriginal(f.far)
          && (h == InLive ==>
              if f.aside.Missing? then IsOriginal(f.live) else IsOriginal(f.aside) && !IsOriginal(f.live))
          && (h == Nowhere ==> f.aside.Missing? && !IsOriginal(f.live)))
    && (way == ToDefault ==>
          && (h == InFar ==> IsOriginal(f.far) && !IsOriginal(f.live))
          && (h != InFar ==> f.far.Missing? && f.incoming.Missing? && f.unit == NoUnit && !f.mounted)
          && (h == InLive ==> IsOriginal(f.live)))
  }

  // Whether the move moves this area.
  predicate Moves(way: Way, h: Home) {
    if way == ToFolder then h == InLive else h == InFar
  }

  predicate GoodTree(t: Tree) {
    IsOriginal(t) || IsGoodCopy(t)
  }

  // The switch of an area it moves stands: Docker runs from the new place.
  predicate SwitchStands(way: Way, h: Home, f: Folders) {
    Moves(way, h) ==>
      if way == ToFolder then f.unit == BoundUnit && f.dropIn else IsGoodCopy(f.live)
  }

  // What the state file promises of one area, phase by phase: this is what
  // makes the decisions a recovery takes from it right.
  predicate Agrees(way: Way, h: Home, f: Folders, a: Area, s: State) {
    if way == ToFolder then
      && (f.mounted ==> f.unit != NoUnit)
      && (f.unit != NoUnit ==> IsGoodCopy(f.far))
      && (s.phase == Stopping || s.phase == Copying ==> f.unit == NoUnit && f.aside.Missing?)
      && (s.phase == Starting || s.phase == Done ==> SwitchStands(way, h, f))
    else
      h == InFar ==>
        && (s.phase == Stopping || s.phase == Copying ==> f.unit == BoundUnit && f.dropIn)
        && (s.phase == Switching && !s.undoing ==>
              IsCopy(f.incoming) || f.unit != NoUnit || (f.incoming.Missing? && IsGoodCopy(f.live)))
        && (s.phase == Starting || s.phase == Done ==> SwitchStands(way, h, f))
  }

  // What is offered for deletion is never the only whole tree.
  predicate SparesOne(way: Way, f: Folders) {
    IsGoodCopy(if way == ToFolder then f.far else f.live)
  }

  // What the start of a service keeps of its area.
  predicate KeptByStart(f: Folders, g: Folders) {
    && g.unit == f.unit && g.dropIn == f.dropIn && g.boots == f.boots && g.enabled == f.enabled
    && g.aside == f.aside && g.incoming == f.incoming
    && (IsOriginal(Sees(f)) ==> IsOriginal(Sees(g)))
    && (IsGoodCopy(Sees(f)) ==> IsGoodCopy(Sees(g)))
    && (IsOriginal(f.live) ==> IsOriginal(g.live))
    && (IsOriginal(f.far) ==> IsOriginal(g.far))
    && (IsGoodCopy(f.far) ==> IsGoodCopy(g.far))
    && (IsGoodCopy(f.live) ==> IsGoodCopy(g.live))
    && (f.mounted ==> g == f.(far := g.far))
    && (g.mounted ==> f.mounted || (f.dropIn && f.unit == BoundUnit))
  }

  lemma ServiceStartedKeeps(f: Folders, drive: bool)
    ensures KeptByStart(f, ServiceStarted(f, drive))
  {
  }

  // All that must hold of one area. `tracked`: the state file can be believed.
  predicate Fine(way: Way, h: Home, f: Folders, a: Area, s: State, tracked: bool, drive: bool) {
    && Safe(way, h, f)
    && (f.mounted ==> drive)
    && (tracked ==> Agrees(way, h, f, a, s) && (a in s.offered ==> SparesOne(way, f)))
  }

  // systemctl enable --now may fail after it enabled, or after it mounted.
  predicate EnabledNow(f: Folders, g: Folders, drive: bool) {
    View(g) == View(f) || (CanMount(f, drive) && View(g) == View(MountedOn(f)))
  }

  lemma EnabledNowFine(
      way: Way, h: Home, f: Folders, g: Folders, a: Area, s: State, tracked: bool, drive: bool)
    requires Fine(way, h, f, a, s, tracked, drive)
    requires EnabledNow(f, g, drive)
    ensures Fine(way, h, g, a, s, tracked, drive)
  {
  }

  lemma ServiceStartedFine(way: Way, h: Home, f: Folders, a: Area, s: State, tracked: bool, drive: bool)
    requires Fine(way, h, f, a, s, tracked, drive)
    ensures Fine(way, h, ServiceStarted(f, drive), a, s, tracked, drive)
  {
  }

  // A copy made for a switch to a folder stays while the docker unit is there.
  predicate CopiesStay(way: Way, home: Pair<Home>, d: Disk) {
    way == ToFolder && home.containerd == InLive && d.docker.unit != NoUnit ==> d.containerd.far.Dir?
  }

  // What a move left behind, listed for deletion unless Docker uses it.
  function Offers(way: Way, d: Disk, drive: bool, locatedFar: bool): set<Area> {
    set a: Area | a in {Containerd, Docker} &&
      SlotThere(d.At(a), OldSlot(way), drive) && !InUse(d.At(a), OldSlot(way), locatedFar)
  }

  // --- the undo of a switch ---

  // The closures a switch collects, named by what they put back.
  datatype Undo =
    | FoldersBack(a: Area)
    | UnitsBack(a: Area, prevUnit: UnitFile, prevDrop: bool)
    | Unmount(a: Area)
    | MountAgain(a: Area)
    | EnableAgain(a: Area)
    | IncomingBack(a: Area)

  // What one undo does to its area when nothing fails. Whether the unit is
  // enabled is left out: disabling is best effort in the source.
  function Put1(u: Undo, f: Folders): Folders {
    match u
    case FoldersBack(_) => f.(live := f.aside, aside := Missing)
    case UnitsBack(_, unit, drop) => f.(unit := unit, dropIn := drop)
    case Unmount(_) => f.(mounted := false)
    case MountAgain(_) => MountedOn(f)
    case EnableAgain(_) => f
    case IncomingBack(_) => f.(incoming := f.live, live := Dir(Made, true))
  }

  function Apply(u: Undo, d: Disk): Disk {
    d.With(u.a, Put1(u, d.At(u.a)))
  }

  // The disk once every undo ran, newest first.
  function Undone(d: Disk, us: seq<Undo>): Disk
    decreases |us|
  {
    if us == [] then d else Undone(Apply(us[|us| - 1], d), us[..|us| - 1])
  }

  // What must hold of its area for one undo to work, when no step of it fails.
  predicate CanUndo(u: Undo, f: Folders, drive: bool) {
    match u
    case FoldersBack(_) => !f.mounted && EmptyOrMissing(f.live) && f.aside.Dir?
    case UnitsBack(_, _, _) => true
    case Unmount(_) => true
    case MountAgain(_) => CanMount(f, drive)
    case EnableAgain(_) => f.unit != NoUnit
    case IncomingBack(_) => CanRename(f, Live, Incoming)
  }

  // Each undo can work when its turn comes, newest first.
  predicate Runs(d: Disk, us: seq<Undo>, drive: bool)
    decreases |us|
  {
    us == [] ||
    var u := us[|us| - 1];
    CanUndo(u, d.At(u.a), drive) && Runs(Apply(u, d), us[..|us| - 1], drive)
  }

  // An area but for what is enabled.
  function View(f: Folders): Folders {
    f.(enabled := false)
  }

  // The same disk, but for what is enabled.
  predicate Same(d: Disk, e: Disk) {
    View(d.containerd) == View(e.containerd) && View(d.docker) == View(e.docker)
  }

  // The same area, but for what is enabled and what its far folder holds.
  predicate Alike(f: Folders, g: Folders) {
    View(f).(far := Missing) == View(g).(far := Missing)
  }

  lemma {:induction false} UndoneSame(d: Disk, e: Disk, us: seq<Undo>)
    requires Same(d, e)
    ensures Same(Undone(d, us), Undone(e, us))
    decreases |us|
  {
    if us != [] {
      UndoneSame(Apply(us[|us| - 1], d), Apply(us[|us| - 1], e), us[..|us| - 1]);
    }
  }

  lemma {:induction false} RunsSame(d: Disk, e: Disk, us: seq<Undo>, drive: bool)
    requires Same(d, e) && Runs(d, us, drive)
    ensures Runs(e, us, drive)
    decreases |us|
  {
    if us != [] {
      RunsSame(Apply(us[|us| - 1], d), Apply(us[|us| - 1], e), us[..|us| - 1], drive);
    }
  }

  lemma {:induction false} RunsConcat(d: Disk, us: seq<Undo>, vs: seq<Undo>, drive: bool)
    requires Runs(d, vs, drive) && Runs(Undone(d, vs), us, drive)
    ensures Runs(d, us + vs, drive)
    decreases |vs|
  {
    if vs == [] {
      assert us + vs == us;
    } else {
      assert (us + vs)[..|us + vs| - 1] == us + vs[..|vs| - 1];
      RunsConcat(Apply(vs[|vs| - 1], d), us, vs[..|vs| - 1], drive);
    }
  }

  // Some undo is of this area.
  predicate Concerns(us: seq<Undo>, a: Area) {
    exists u <- us :: u.a == a
  }

  // A disk Docker wrote on since, seen by the undos that remain.
  predicate Kin(f: Folders, g: Folders, us: seq<Undo>, a: Area) {
    Concerns(us, a) ==>
    && g.mounted == f.mounted && g.unit == f.unit && g.aside == f.aside
    && (f.far.Dir? ==> g.far.Dir?) && (f.live.Dir? <==> g.live.Dir?)
    && (f.live.Dir? && FoldersBack(a) in us ==> g.live.empty == f.live.empty)
    && (IncomingBack(a) in us && EmptyOrMissing(f.incoming) ==> EmptyOrMissing(g.incoming))
  }

  predicate OnceEach(us: seq<Undo>) {
    forall i, j :: 0 <= i < j < |us| ==> us[i] != us[j]
  }

  // What Docker writes takes no undo its turn.
  lemma {:induction false} RunsKin(d: Disk, e: Disk, us: seq<Undo>, drive: bool)
    requires Kin(d.containerd, e.containerd, us, Containerd) && Kin(d.docker, e.docker, us, Docker)
    requires OnceEach(us) && Runs(d, us, drive)
    ensures Runs(e, us, drive)
    decreases |us|
  {
    if us != [] {
      var rest, u := us[..|us| - 1], us[|us| - 1];
      assert us == rest + [u];
      assert u !in rest;
      KinStep(d.containerd, e.containerd, us, rest, u, Containerd);
      KinStep(d.docker, e.docker, us, rest, u, Docker);
      CanUndoKin(u, d.At(u.a), e.At(u.a), us, drive);
      RunsKin(Apply(u, d), Apply(u, e), rest, drive);
    }
  }

  lemma CanUndoKin(u: Undo, f: Folders, g: Folders, us: seq<Undo>, drive: bool)
    requires Kin(f, g, us, u.a) && u in us && CanUndo(u, f, drive)
    ensures CanUndo(u, g, drive)
  {
  }

  lemma KinStep(f: Folders, g: Folders, us: seq<Undo>, rest: seq<Undo>, u: Undo, a: Area)
    requires Kin(f, g, us, a) && us == rest + [u] && u !in rest
    ensures if u.a == a then Kin(Put1(u, f), Put1(u, g), rest, a) else Kin(f, g, rest, a)
  {
  }

  lemma Put1Alike(u: Undo, f: Folders, g: Folders)
    requires Alike(f, g)
    ensures Alike(Put1(u, f), Put1(u, g))
  {
  }

  lemma {:induction false} UndoneAlike(d: Disk, e: Disk, us: seq<Undo>, a: Area)
    requires Alike(d.At(a), e.At(a))
    ensures Alike(Undone(d, us).At(a), Undone(e, us).At(a))
    decreases |us|
  {
    if us != [] {
      Put1Alike(us[|us| - 1], d.At(a), e.At(a));
      UndoneAlike(Apply(us[|us| - 1], d), Apply(us[|us| - 1], e), us[..|us| - 1], a);
    }
  }

  lemma UndoneUnfolds(d: Disk, us: seq<Undo>)
    ensures us == [] ==> Undone(d, us) == d
    ensures |us| == 1 ==> Undone(d, us) == Apply(us[0], d)
    ensures |us| == 2 ==> Undone(d, us) == Apply(us[0], Apply(us[1], d))
    ensures |us| == 3 ==> Undone(d, us) == Apply(us[0], Apply(us[1], Apply(us[2], d)))
    ensures |us| == 4 ==> Undone(d, us) == Apply(us[0], Apply(us[1], Apply(us[2], Apply(us[3], d))))
    decreases |us|
  {
    if 1 <= |us| <= 4 {
      UndoneUnfolds(Apply(us[|us| - 1], d), us[..|us| - 1]);
    }
  }

  lemma RunsUnfolds(d: Disk, us: seq<Undo>, drive: bool)
    ensures |us| >= 1 && CanUndo(us[|us| - 1], d.At(us[|us| - 1].a), drive) ==>
              Runs(d, us, drive) == Runs(Apply(us[|us| - 1], d), us[..|us| - 1], drive)
    ensures |us| == 1 ==> Runs(d, us, drive) == CanUndo(us[0], d.At(us[0].a), drive)
    ensures |us| == 2 && CanUndo(us[1], d.At(us[1].a), drive) ==>
              Runs(d, us, drive) == CanUndo(us[0], Apply(us[1], d).At(us[0].a), drive)
  {
    if |us| == 2 {
      assert us[..1] == [us[0]];
    }
  }

  // Where one area's part of a switch to a folder can end, and what it pushed:
  // nothing renamed, the folder only, or the unit and the drop-in on the way.
  predicate AreaSwitching(a: Area, f: Folders, g: Folders, pushed: seq<Undo>, ok: bool) {
    if pushed == [] then
      g == f && !ok
    else
      && CanRename(f, Live, Aside)
      && g.live == (if |pushed| == 1 then Missing else Dir(Made, true))
      && g == f.(live := g.live, aside := f.live, unit := g.unit, dropIn := g.dropIn)
      && (pushed == [FoldersBack(a)] ==> g.unit == f.unit && g.dropIn == f.dropIn && !ok)
      && (pushed == [FoldersBack(a)] || pushed == [FoldersBack(a), UnitsBack(a, f.unit, f.dropIn)])
      && (ok ==> g.unit == BoundUnit && g.dropIn)
  }

  // Undone, it is as it was; and meanwhile nothing a recovery needs is lost.
  lemma AreaSwitchingUndone(a: Area, was: Disk, now: Disk, pushed: seq<Undo>, ok: bool)
    requires now == was.With(a, now.At(a))
    requires AreaSwitching(a, was.At(a), now.At(a), pushed, ok)
    requires was.At(a).aside.Missing?
    ensures Undone(now, pushed) == was
    ensures forall drive :: Runs(now, pushed, drive)
  {
    UndoneUnfolds(now, pushed);
    forall drive
      ensures Runs(now, pushed, drive)
    {
      RunsUnfolds(now, pushed, drive);
    }
  }

  lemma AreaSwitchingFine(
      a: Area, h: Home, f: Folders, g: Folders, pushed: seq<Undo>, ok: bool, s: State, tracked: bool, drive: bool)
    requires Fine(ToFolder, h, f, a, s, tracked, drive)
    requires AreaSwitching(a, f, g, pushed, ok)
    requires h == InLive ==> IsGoodCopy(f.far)
    requires f.aside.Missing? && f.unit == NoUnit && !f.mounted && (h == Nowhere ==> f.live.Missing?)
    requires tracked ==> s.phase == Switching
    ensures Fine(ToFolder, h, g, a, s, tracked, drive)
    ensures pushed != [] ==> h == InLive && IsOriginal(g.aside)
  {
  }

  function Fars(d: Disk): Pair<Tree> {
    Pair(d.containerd.far, d.docker.far)
  }

  // What can become of an area when one undo runs, stuck or not.
  predicate UndoStepped(u: Undo, f: Folders, g: Folders, stuck: bool, ok: bool) {
    match u
    case FoldersBack(_) =>
      if stuck then !ok && g == f
      else if ok then (f.live.Missing? || CanRemoveLive(f)) && f.aside.Dir? && g == Put1(u, f)
      else g == f || (CanRemoveLive(f) && g == f.(live := Missing))
    case UnitsBack(_, unit, drop) =>
      if stuck then ok && g == f
      else
        && g == f.(unit := g.unit, dropIn := g.dropIn)
        && (ok ==> g == Put1(u, f))
        && (g.unit == f.unit || g.unit == unit || (unit != NoUnit && g.unit == CutUnit))
    case Unmount(_) => View(g) == View(if ok then Put1(u, f) else f)
    case MountAgain(_) => g == (if ok then Put1(u, f) else f)
    case EnableAgain(_) => View(g) == View(f) && (ok ==> f.unit != NoUnit)
    case IncomingBack(_) =>
      if ok then CanRename(f, Live, Incoming) && g == Put1(u, f)
      else g == f || (CanRename(f, Live, Incoming) && g == f.(incoming := f.live, live := Missing))
  }

  // The undos a switch of this way collects, for an area it moves.
  predicate UndoFits(way: Way, h: Home, f: Folders, u: Undo) {
    if way == ToFolder then
      && h == InLive
      && (u.FoldersBack? || (u.UnitsBack? && u.prevUnit == NoUnit) || u.Unmount?)
      && (u.FoldersBack? ==> IsOriginal(f.aside))
    else
      && h == InFar
      && (u.MountAgain? || u.EnableAgain? || u.UnitsBack? || u.IncomingBack?)
      && (u.UnitsBack? ==> u.prevUnit == BoundUnit && u.prevDrop)
      && (u.IncomingBack? ==> IsGoodCopy(f.live))
  }

  // A copy of an area a move moves is still there, complete.
  predicate CopyKept(way: Way, h: Home, f: Folders) {
    Moves(way, h) ==> if way == ToFolder then IsGoodCopy(f.far) else IsGoodCopy(f.live) || IsGoodCopy(f.incoming)
  }

  lemma UndoSteppedFine(
      way: Way, h: Home, u: Undo, f: Folders, g: Folders, stuck: bool, ok: bool,
      s: State, tracked: bool, drive: bool)
    requires Fine(way, h, f, u.a, s, tracked, drive)
    requires tracked ==> s.phase == Switching && (way == ToDefault ==> s.undoing) && s.offered == {}
    requires UndoFits(way, h, f, u)
    requires UndoStepped(u, f, g, stuck, ok)
    requires u.UnitsBack? && way == ToFolder && !stuck ==> !f.mounted
    requires u.MountAgain? && ok ==> f.mounted || drive
    ensures Fine(way, h, g, u.a, s, tracked, drive)
    ensures g.far == f.far && (CopyKept(way, h, f) ==> CopyKept(way, h, g))
  {
  }

  // An undo that worked is one fewer to run.
  lemma SteppedUndone(was: Disk, now: Disk, us: seq<Undo>, rest: seq<Undo>, u: Undo)
    requires us == rest + [u] && now == was.With(u.a, now.At(u.a))
    requires UndoStepped(u, was.At(u.a), now.At(u.a), false, true)
    ensures Same(Undone(now, rest), Undone(was, us))
    ensures forall drive :: CanUndo(u, was.At(u.a), drive) ==> (Runs(was, us, drive) <==> Runs(now, rest, drive))
  {
    assert us[..|us| - 1] == rest && us[|us| - 1] == u;
    UndoneSame(now, Apply(u, was), rest);
    forall drive | CanUndo(u, was.At(u.a), drive)
      ensures Runs(was, us, drive) <==> Runs(now, rest, drive)
    {
      if Runs(now, rest, drive) {
        RunsSame(now, Apply(u, was), rest, drive);
      }
      if Runs(was, us, drive) {
        RunsSame(Apply(u, was), now, rest, drive);
      }
    }
  }

  // --- where the undos of a way back lead, whether all of them can run or not ---

  // Units go back, where they do, before their mounts start.
  predicate UnitsLater(us: seq<Undo>) {
    forall i, j :: 0 <= i < j < |us| && us[i].UnitsBack? ==> us[j] != MountAgain(us[i].a)
  }

  // The undos left to run mount this area, or it is mounted.
  predicate Mends(f: Folders, us: seq<Undo>, a: Area) {
    if MountAgain(a) in us then UnitsBack(a, BoundUnit, true) in us || (f.unit == BoundUnit && f.dropIn)
    else f.mounted && f.unit == BoundUnit && f.dropIn
  }

  predicate Mending(way: Way, home: Pair<Home>, d: Disk, us: seq<Undo>) {
    way == ToDefault ==>
      && UnitsLater(us)
      && (home.containerd == InFar ==> Mends(d.containerd, us, Containerd))
      && (home.docker == InFar ==> Mends(d.docker, us, Docker))
  }

  // One undo that fails only where it cannot run.
  lemma MendStep(
      home: Pair<Home>, was: Disk, now: Disk, us: seq<Undo>, rest: seq<Undo>, u: Undo, ok: bool, drive: bool)
    requires us == rest + [u] && Mending(ToDefault, home, was, us) && UndoFits(ToDefault, home.At(u.a), was.At(u.a), u)
    requires now == was.With(u.a, now.At(u.a)) && UndoStepped(u, was.At(u.a), now.At(u.a), false, ok)
    requires CanUndo(u, was.At(u.a), drive) ==> ok
    requires drive && was.At(u.a).far.Dir?
    ensures Mending(ToDefault, home, now, rest)
  {
    assert forall i :: 0 <= i < |rest| ==> us[i] == rest[i];
    MendArea(home.containerd, was.containerd, now.containerd, us, rest, u, ok, drive, Containerd);
    MendArea(home.docker, was.docker, now.docker, us, rest, u, ok, drive, Docker);
  }

  lemma MendArea(
      h: Home, f: Folders, g: Folders, us: seq<Undo>, rest: seq<Undo>, u: Undo, ok: bool, drive: bool, a: Area)
    requires us == rest + [u] && UnitsLater(us) && (h == InFar ==> Mends(f, us, a))
    requires if u.a == a then UndoFits(ToDefault, h, f, u) && UndoStepped(u, f, g, false, ok) else g == f
    requires u.a == a ==> (CanUndo(u, f, drive) ==> ok) && drive && f.far.Dir?
    ensures h == InFar ==> Mends(g, rest, a)
  {
    assert forall v :: v in us <==> v in rest || v == u;
    assert us[|rest|] == u;
    forall i | 0 <= i < |rest| && rest[i].UnitsBack?
      ensures u != MountAgain(rest[i].a)
    {
      assert us[i] == rest[i];
    }
  }

  // With none left, every area is mounted from the folder again.
  lemma MendedHome(way: Way, home: Pair<Home>, d: Disk)
    requires way == ToDefault && Mending(way, home, d, [])
    requires Safe(way, home.containerd, d.containerd) && Safe(way, home.docker, d.docker)
    ensures AtHome(way, home.containerd, d.containerd) && AtHome(way, home.docker, d.docker)
  {
  }

  // The undos of a switch to a folder: every unmount is pushed after, so runs
  // before, what needs it; and nothing is pushed twice.
  predicate Orderly(us: seq<Undo>) {
    OnceEach(us) && forall i, j :: 0 <= i < j < |us| && us[i].Unmount? ==> us[j].Unmount?
  }

  // The undos not run yet can run, given the areas found stuck so far.
  ghost predicate StillUndoable(way: Way, home: Pair<Home>, d: Disk, us: seq<Undo>, stuck: Pair<bool>) {
    && (forall u <- us :: UndoFits(way, home.At(u.a), d.At(u.a), u))
    && Orderly(us)
    && (way == ToFolder ==> forall a :: d.At(a).mounted && !stuck.At(a) ==> Unmount(a) in us)
  }

  ghost predicate Undoable(way: Way, home: Pair<Home>, d: Disk, us: seq<Undo>) {
    StillUndoable(way, home, d, us, Pair(false, false))
  }

  function StuckAfter(u: Undo, ok: bool, stuck: Pair<bool>): Pair<bool> {
    if u.Unmount? && !ok then stuck.With(u.a, true) else stuck
  }

  lemma UndoStepKeeps(
      way: Way, home: Pair<Home>, was: Disk, now: Disk, us: seq<Undo>, stuck: Pair<bool>, ok: bool)
    requires us != [] && StillUndoable(way, home, was, us, stuck)
    requires var u := us[|us| - 1];
      now == was.With(u.a, now.At(u.a)) && UndoStepped(u, was.At(u.a), now.At(u.a), stuck.At(u.a), ok)
    ensures StillUndoable(way, home, now, us[..|us| - 1], StuckAfter(us[|us| - 1], ok, stuck))
  {
    var rest, u := us[..|us| - 1], us[|us| - 1];
    forall v <- rest
      ensures UndoFits(way, home.At(v.a), now.At(v.a), v)
    {
      assert v in us;
      if v.a != u.a {
        assert now.At(v.a) == was.At(v.a);
      }
    }
    if way == ToFolder {
      forall a | now.At(a).mounted && !StuckAfter(u, ok, stuck).At(a)
        ensures Unmount(a) in rest
      {
        assert a != u.a ==> now.At(a) == was.At(a);
        assert Unmount(a) in us;
      }
    }
  }

  // No unit goes from under a mount that can still be stopped.
  lemma NewestCanRun(way: Way, home: Pair<Home>, d: Disk, us: seq<Undo>, stuck: Pair<bool>)
    requires us != [] && StillUndoable(way, home, d, us, stuck)
    ensures var u := us[|us| - 1];
      && UndoFits(way, home.At(u.a), d.At(u.a), u)
      && (u.UnitsBack? && way == ToFolder && !stuck.At(u.a) ==> !d.At(u.a).mounted)
  {
    assert us[|us| - 1] in us;
  }

  // With the undos from i on run since start: an area none of them is of is as
  // it was, and so is one whose mount would not stop, but for what is enabled.
  ghost predicate LeftAlone(us: seq<Undo>, i: nat, start: Disk, d: Disk, stuck: Pair<bool>)
    requires i <= |us|
  {
    && (forall a :: (forall u <- us[i..] :: u.a != a) ==> d.At(a) == start.At(a))
    && (forall a :: stuck.At(a) ==> Unmount(a) in us[i..] && View(d.At(a)) == View(start.At(a)))
  }

  lemma LeftAloneStep(
      us: seq<Undo>, i: nat, start: Disk, was: Disk, now: Disk, stuck: Pair<bool>, ok: bool, way: Way)
    requires i < |us| && (way == ToFolder ==> Orderly(us))
        && (way == ToDefault ==> !us[i].Unmount? && stuck == Pair(false, false))
    requires LeftAlone(us, i + 1, start, was, stuck)
    requires now == was.With(us[i].a, now.At(us[i].a))
    requires UndoStepped(us[i], was.At(us[i].a), now.At(us[i].a), stuck.At(us[i].a), ok)
    requires way == ToFolder ==> us[i].FoldersBack? || us[i].UnitsBack? || us[i].Unmount?
    ensures LeftAlone(us, i, start, now, StuckAfter(us[i], ok, stuck))
  {
    var u := us[i];
    assert us[i..] == [u] + us[i + 1..];
    forall a | StuckAfter(u, ok, stuck).At(a)
      ensures Unmount(a) in us[i..] && View(now.At(a)) == View(start.At(a))
    {
      if a != u.a {
        assert now.At(a) == was.At(a);
      } else if stuck.At(a) {
        assert u != Unmount(a);
      } else {
        assert forall v <- us[i + 1..] :: v.a != a;
      }
    }
  }

  lemma {:induction false} UndoneConcat(d: Disk, us: seq<Undo>, vs: seq<Undo>)
    ensures Undone(d, us + vs) == Undone(Undone(d, vs), us)
    decreases |vs|
  {
    if vs == [] {
      assert us + vs == us;
    } else {
      assert (us + vs)[..|us + vs| - 1] == us + vs[..|vs| - 1];
      UndoneConcat(Apply(vs[|vs| - 1], d), us, vs[..|vs| - 1]);
    }
  }

  // Undos that start an area's mount and stop none leave it mounted.
  lemma {:induction false} UndoneMounts(d: Disk, us: seq<Undo>, a: Area)
    requires MountAgain(a) in us || d.At(a).mounted
    requires forall u <- us :: !u.Unmount?
    ensures Undone(d, us).At(a).mounted
    decreases |us|
  {
    if us != [] {
      UndoneMounts(Apply(us[|us| - 1], d), us[..|us| - 1], a);
    }
  }

  // Undos put units back whatever else became of the area.
  lemma {:induction false} UndoneUnits(d: Disk, e: Disk, us: seq<Undo>, a: Area)
    requires d.At(a).unit == e.At(a).unit && d.At(a).dropIn == e.At(a).dropIn
    ensures Undone(d, us).At(a).unit == Undone(e, us).At(a).unit
    ensures Undone(d, us).At(a).dropIn == Undone(e, us).At(a).dropIn
    decreases |us|
  {
    if us != [] {
      UndoneUnits(Apply(us[|us| - 1], d), Apply(us[|us| - 1], e), us[..|us| - 1], a);
    }
  }

  lemma UndoablePushArea(
      home: Pair<Home>, was: Disk, now: Disk, a: Area, us: seq<Undo>, pushed: seq<Undo>, ok: bool)
    requires Undoable(ToFolder, home, was, us)
    requires now == was.With(a, now.At(a))
    requires AreaSwitching(a, was.At(a), now.At(a), pushed, ok)
    requires was.At(a).unit == NoUnit
    requires forall u <- us :: u.a != a && !u.Unmount?
    requires pushed != [] ==> home.At(a) == InLive && IsOriginal(now.At(a).aside)
    ensures Undoable(ToFolder, home, now, us + pushed)
    ensures forall u <- us + pushed :: !u.Unmount?
  {
    forall u <- us + pushed
      ensures UndoFits(ToFolder, home.At(u.a), now.At(u.a), u)
    {
      if u in us {
        assert now.At(u.a) == was.At(u.a);
      }
    }
    assert forall b :: was.At(b).mounted ==> Unmount(b) in us;
  }

  lemma UndoablePushUnmount(home: Pair<Home>, was: Disk, now: Disk, a: Area, us: seq<Undo>)
    requires Undoable(ToFolder, home, was, us)
    requires now == was.With(a, now.At(a)) && now.At(a).aside == was.At(a).aside
    requires home.At(a) == InLive && Unmount(a) !in us
    ensures Undoable(ToFolder, home, now, us + [Unmount(a)])
  {
    forall b | now.At(b).mounted
      ensures Unmount(b) in us + [Unmount(a)]
    {
      if b != a {
        assert now.At(b) == was.At(b);
      }
    }
  }

  // --- a switch to a folder ---

  predicate ReadyForFolder(h: Home, f: Folders) {
    && f.aside.Missing? && f.unit == NoUnit && !f.mounted
    && (h == InLive ==> IsGoodCopy(f.far))
    && (h == Nowhere ==> f.live.Missing?)
  }

  predicate UnitsWritten(h: Home, f: Folders, g: Folders) {
    if f.far.Missing? then g == f
    else h == InLive && g.unit == BoundUnit && g.dropIn && !g.mounted && g.far == f.far && g.live.Dir?
  }

  predicate SwitchedToFolder(h: Home, f: Folders, g: Folders) {
    if f.far.Missing? then g == f
    else h == InLive && g.unit == BoundUnit && g.dropIn && g.mounted && g.far == f.far && g.live.Dir?
  }

  // --- a switch back to the default place ---

  predicate ReadyForDefault(h: Home, f: Folders) {
    && (h == InFar ==>
        f.mounted && f.unit == BoundUnit && f.dropIn && f.live == Dir(Made, true) && IsGoodCopy(f.incoming))
  }

  function LeavingUndos(a: Area, f: Folders): seq<Undo> {
    [MountAgain(a), EnableAgain(a), UnitsBack(a, f.unit, f.dropIn)]
  }

  // An area's mount is gone; removing its unit and drop-in is best effort.
  predicate UnitsTaken(f: Folders, g: Folders) {
    && (g.unit == f.unit || g.unit == NoUnit)
    && View(g) == View(f).(mounted := false, unit := g.unit, dropIn := g.dropIn)
  }

  // The copy took the place of the empty live folder, or did not.
  predicate IncomingBrought(f: Folders, g: Folders, ok: bool) {
    if ok then f.incoming.Dir? && g == f.(live := f.incoming, incoming := Missing)
    else g == f || (EmptyOrMissing(f.live) && g.live in {Missing, Dir(Made, true)} && g == f.(live := g.live))
  }

  // One area's part of a switch back, through what was in between, and the
  // undos it pushed.
  predicate AreaLeaving(a: Area, f: Folders, mid: Folders, g: Folders, pushed: seq<Undo>, ok: bool) {
    if pushed == [] then
      g == f && !ok
    else
      && UnitsTaken(f, mid)
      && IncomingBrought(mid, g, ok)
      && pushed == LeavingUndos(a, f) + if ok then [IncomingBack(a)] else []
  }

  lemma AreaLeavingUndone(a: Area, was: Disk, mid: Folders, now: Disk, pushed: seq<Undo>, ok: bool)
    requires now == was.With(a, now.At(a))
    requires AreaLeaving(a, was.At(a), mid, now.At(a), pushed, ok)
    requires was.At(a).mounted && was.At(a).live == Dir(Made, true)
    ensures Same(Undone(now, pushed), was)
    ensures was.At(a).unit == BoundUnit && was.At(a).far.Dir? ==> Runs(now, pushed, true)
  {
    UndoneUnfolds(now, pushed);
    if was.At(a).unit == BoundUnit && was.At(a).far.Dir? {
      LeavingRuns(a, was.At(a), mid, now, pushed, ok);
    }
  }

  // The unit is there again before it is enabled, and before its mount starts.
  lemma LeavingRuns(a: Area, f: Folders, mid: Folders, now: Disk, pushed: seq<Undo>, ok: bool)
    requires AreaLeaving(a, f, mid, now.At(a), pushed, ok)
    requires f.mounted && f.unit == BoundUnit && f.far.Dir? && f.live == Dir(Made, true)
    ensures Runs(now, pushed, true)
  {
    if pushed != [] {
      var d := if ok then Apply(IncomingBack(a), now) else now;
      var us := LeavingUndos(a, f);
      if ok {
        assert pushed[..|pushed| - 1] == us;
        RunsUnfolds(now, pushed, true);
      } else {
        assert pushed == us;
      }
      UnitsFirst(a, f, d);
    }
  }

  lemma UnitsFirst(a: Area, f: Folders, d: Disk)
    requires f.unit == BoundUnit && d.At(a).far.Dir?
    ensures Runs(d, LeavingUndos(a, f), true)
  {
    var us := LeavingUndos(a, f);
    assert us[..2] == [MountAgain(a), EnableAgain(a)];
    RunsUnfolds(d, us, true);
    RunsUnfolds(Apply(us[2], d), us[..2], true);
  }

  // The other order would start a mount that has no unit.
  lemma UnitsLastCannotRun(a: Area, f: Folders, d: Disk, drive: bool)
    requires d.At(a).unit == NoUnit && !d.At(a).mounted
    ensures !Runs(d, [UnitsBack(a, f.unit, f.dropIn), EnableAgain(a), MountAgain(a)], drive)
  {
    RunsUnfolds(d, [UnitsBack(a, f.unit, f.dropIn), EnableAgain(a), MountAgain(a)], drive);
  }

  lemma AreaLeavingFine(
      a: Area, f: Folders, mid: Folders, g: Folders, pushed: seq<Undo>, ok: bool, s: State, tracked: bool, drive: bool)
    requires Fine(ToDefault, InFar, f, a, s, tracked, drive)
    requires AreaLeaving(a, f, mid, g, pushed, ok)
    requires ReadyForDefault(InFar, f)
    requires tracked ==> s.phase == Switching && s.offered == {}
    ensures Fine(ToDefault, InFar, g, a, s, tracked, drive)
    ensures CopyKept(ToDefault, InFar, g)
  {
  }

  lemma OrderlyPush(us: seq<Undo>, pushed: seq<Undo>, all: seq<Undo>, a: Area)
    requires Orderly(us) && (forall u <- us :: u.a != a && !u.Unmount?)
    requires pushed <= all && OnceEach(all) && forall u <- all :: u.a == a && !u.Unmount?
    ensures Orderly(us + pushed) && forall u <- us + pushed :: u in us || u.a == a
  {
    assert forall u <- pushed :: u in all;
    assert forall i :: 0 <= i < |pushed| ==> pushed[i] == all[i];
  }

  lemma UndoablePushLeaving(
      home: Pair<Home>, was: Disk, now: Disk, a: Area, us: seq<Undo>, pushed: seq<Undo>)
    requires Undoable(ToDefault, home, was, us) && home.At(a) == InFar
    requires forall u <- us :: u.a != a
    requires now == was.With(a, now.At(a)) && was.At(a).unit == BoundUnit && was.At(a).dropIn
    requires pushed == [] || LeavingUndos(a, was.At(a)) <= pushed <= LeavingUndos(a, was.At(a)) + [IncomingBack(a)]
    requires IncomingBack(a) in pushed ==> IsGoodCopy(now.At(a).live)
    ensures Undoable(ToDefault, home, now, us + pushed)
    ensures forall u <- us + pushed :: u in us || u.a == a
    ensures pushed != [] ==> MountAgain(a) in us + pushed
  {
    var all := LeavingUndos(a, was.At(a)) + [IncomingBack(a)];
    assert OnceEach(all) && forall u <- all :: u.a == a && !u.Unmount?;
    assert forall u <- us :: UndoFits(ToDefault, home.At(u.a), was.At(u.a), u);
    OrderlyPush(us, pushed, all, a);
    assert forall u <- pushed :: u in all;
    forall u <- us
      ensures UndoFits(ToDefault, home.At(u.a), now.At(u.a), u)
    {
      assert now.At(u.a) == was.At(u.a);
    }
    if pushed != [] {
      assert pushed[0] == MountAgain(a);
    }
  }

  lemma MendingPushLeaving(
      home: Pair<Home>, was: Disk, mid: Folders, now: Disk, a: Area, us: seq<Undo>, pushed: seq<Undo>, ok: bool)
    requires Mending(ToDefault, home, was, us) && home.At(a) == InFar
    requires forall u <- us :: u.a != a
    requires now == was.With(a, now.At(a)) && was.At(a).unit == BoundUnit && was.At(a).dropIn
    requires AreaLeaving(a, was.At(a), mid, now.At(a), pushed, ok)
    ensures Mending(ToDefault, home, now, us + pushed)
    ensures ok ==> MountAgain(a) in us + pushed && IncomingBack(a) in us + pushed
  {
    var all := us + pushed;
    if pushed != [] {
      assert pushed[0] == MountAgain(a) && pushed[2] == UnitsBack(a, BoundUnit, true);
      assert MountAgain(a) in all && UnitsBack(a, BoundUnit, true) in all;
      assert forall u <- pushed :: u.a == a;
      assert forall k :: 0 <= k < |pushed| && pushed[k].UnitsBack? ==> 2 <= k;
      assert UnitsLater(all);
      assert ok ==> pushed[3] == IncomingBack(a);
    } else {
      assert all == us;
    }
  }

  // What an area pushes as it leaves.
  lemma LeavingPushed(a: Area, f: Folders, mid: Folders, g: Folders, pushed: seq<Undo>, ok: bool)
    requires AreaLeaving(a, f, mid, g, pushed, ok) && ReadyForDefault(InFar, f)
    ensures pushed == [] || LeavingUndos(a, f) <= pushed <= LeavingUndos(a, f) + [IncomingBack(a)]
    ensures IncomingBack(a) in pushed ==> IsGoodCopy(g.live)
  {
    if pushed != [] && !ok {
      assert IncomingBack(a) !in LeavingUndos(a, f);
    }
  }

  lemma UndoableLeaving(
      home: Pair<Home>, was: Disk, mid: Folders, now: Disk, a: Area, us: seq<Undo>, pushed: seq<Undo>, ok: bool)
    requires Undoable(ToDefault, home, was, us) && home.At(a) == InFar && ReadyForDefault(InFar, was.At(a))
    requires now == was.With(a, now.At(a)) && AreaLeaving(a, was.At(a), mid, now.At(a), pushed, ok)
    requires forall u <- us :: u.a != a
    ensures Undoable(ToDefault, home, now, us + pushed)
    ensures forall u <- us + pushed :: u in us || u.a == a
  {
    LeavingPushed(a, was.At(a), mid, now.At(a), pushed, ok);
    UndoablePushLeaving(home, was, now, a, us, pushed);
  }

  // One area's part joins a switch back under way.
  lemma LeavingJoins(
      start: Disk, was: Disk, mid: Folders, now: Disk, a: Area, us: seq<Undo>, pushed: seq<Undo>, ok: bool)
    requires Same(Undone(was, us), start) && Runs(was, us, true)
    requires now == was.With(a, now.At(a)) && AreaLeaving(a, was.At(a), mid, now.At(a), pushed, ok)
    requires ReadyForDefault(InFar, was.At(a)) && was.At(a).far.Dir?
    ensures Same(Undone(now, us + pushed), start) && Runs(now, us + pushed, true)
  {
    AreaLeavingUndone(a, was, mid, now, pushed, ok);
    JoinUndone(start, was, now, us, pushed);
  }

  // Undos that lead back to where others start from.
  lemma JoinUndone(start: Disk, was: Disk, now: Disk, us: seq<Undo>, pushed: seq<Undo>)
    requires Same(Undone(was, us), start) && Runs(was, us, true)
    requires Same(Undone(now, pushed), was) && Runs(now, pushed, true)
    ensures Same(Undone(now, us + pushed), start) && Runs(now, us + pushed, true)
  {
    UndoneConcat(now, us, pushed);
    UndoneSame(Undone(now, pushed), was, us);
    RunsSame(was, Undone(now, pushed), us, true);
    RunsConcat(now, us, pushed, true);
  }

  predicate SwitchedToDefault(f: Folders, g: Folders, a: Area, us: seq<Undo>) {
    if f.incoming.Missing? then g == f
    else
      && g.live == f.incoming && g.incoming.Missing? && !g.mounted && g.far == f.far
      && MountAgain(a) in us && IncomingBack(a) in us
  }

  // The first i areas switched back.
  predicate LeftUpTo(d: Disk, e: Disk, us: seq<Undo>, i: nat) {
    && (forall u <- us :: Index(u.a) < i)
    && (if i < 1 then e.containerd == d.containerd else SwitchedToDefault(d.containerd, e.containerd, Containerd, us))
    && (if i < 2 then e.docker == d.docker else SwitchedToDefault(d.docker, e.docker, Docker, us))
  }

  lemma NothingLeft(home: Pair<Home>, d: Disk)
    requires ReadyForDefault(home.containerd, d.containerd) && ReadyForDefault(home.docker, d.docker)
    ensures Undoable(ToDefault, home, d, []) && Mending(ToDefault, home, d, []) && LeftUpTo(d, d, [], 0)
    ensures BothCopiesKept(ToDefault, home, d) && Undone(d, []) == d && Runs(d, [], true)
  {
  }

  // --- the copy ---

  // An area while copies are made: only the slot the copy goes to changes.
  predicate SlotOnly(way: Way, f: Folders, g: Folders) {
    g == Put(f, CopySlot(way), Get(g, CopySlot(way)))
  }

  // Only the copies of what the move moves change.
  predicate CopiesOnly(way: Way, home: Pair<Home>, d: Disk, e: Disk) {
    && SlotOnly(way, d.containerd, e.containerd) && SlotOnly(way, d.docker, e.docker)
    && (!Moves(way, home.containerd) ==> e.containerd == d.containerd)
    && (!Moves(way, home.docker) ==> e.docker == d.docker)
  }

  // A folder under the target of an area there is nothing of to move.
  predicate Stray(way: Way, home: Pair<Home>, d: Disk) {
    way == ToFolder && ((home.containerd == Nowhere && d.containerd.far.Dir?) ||
                        (home.docker == Nowhere && d.docker.far.Dir?))
  }

  lemma CopiesOnlyThrough(way: Way, home: Pair<Home>, d: Disk, m: Disk, e: Disk)
    requires CopiesOnly(way, home, d, m) && CopiesOnly(way, home, m, e)
    ensures CopiesOnly(way, home, d, e) && (Stray(way, home, d) <==> Stray(way, home, e))
  {
  }

  lemma FlushedCopiesOnly(way: Way, home: Pair<Home>, d: Disk, e: Disk, copied: seq<Area>, i: nat)
    requires i <= |copied| && FlushedUpTo(way, d, e, copied, i) && forall a <- copied :: Moves(way, home.At(a))
    ensures CopiesOnly(way, home, d, e)
  {
    assert Containerd in copied ==> Moves(way, home.At(Containerd));
    assert Docker in copied ==> Moves(way, home.At(Docker));
  }

  predicate WholeCopy(t: Tree) {
    IsCopy(t) && t.what.whole
  }

  predicate CopiedArea(way: Way, h: Home, f: Folders, g: Folders) {
    && SlotOnly(way, f, g)
    && (if Moves(way, h) then WholeCopy(Get(g, CopySlot(way))) else g == f)
  }

  // The first i areas copied, where the move moves them.
  predicate CopiedUpTo(way: Way, home: Pair<Home>, d: Disk, e: Disk, copied: seq<Area>, i: nat) {
    && (forall a <- copied :: Moves(way, home.At(a)))
    && (if i < 1 then e.containerd == d.containerd
        else CopiedArea(way, home.containerd, d.containerd, e.containerd)
             && (Moves(way, home.containerd) ==> Containerd in copied))
    && (if i < 2 then e.docker == d.docker
        else CopiedArea(way, home.docker, d.docker, e.docker) && (Moves(way, home.docker) ==> Docker in copied))
  }

  lemma CopiedStep(
      way: Way, home: Pair<Home>, d: Disk, was: Disk, now: Disk, copied: seq<Area>, more: seq<Area>, i: nat, next: nat)
    requires i < 2 && next == i + 1 && CopiedUpTo(way, home, d, was, copied, i)
        && now == was.With(Nth(i), now.At(Nth(i)))
    requires more == if Moves(way, home.At(Nth(i))) then copied + [Nth(i)] else copied
    requires CopiedArea(way, home.At(Nth(i)), was.At(Nth(i)), now.At(Nth(i)))
    ensures CopiedUpTo(way, home, d, now, more, next)
  {
  }

  lemma CopiedSlots(way: Way, home: Pair<Home>, d: Disk, was: Disk, now: Disk, copied: seq<Area>, i: nat)
    requires i <= 2 && CopiedUpTo(way, home, d, was, copied, i)
    requires now == was
        || (i < 2 && now == was.With(Nth(i), now.At(Nth(i))) && SlotOnly(way, was.At(Nth(i)), now.At(Nth(i))))
    requires now == was || Moves(way, home.At(Nth(i)))
    ensures CopiesOnly(way, home, d, now)
  {
  }

  // A flush loses nothing that was copied; one that worked leaves it on the disk.
  predicate FlushedArea(way: Way, f: Folders, g: Folders, due: bool, done: bool) {
    if due then
      && SlotOnly(way, f, g)
      && (WholeCopy(Get(f, CopySlot(way))) ==>
            if done then IsGoodCopy(Get(g, CopySlot(way))) else WholeCopy(Get(g, CopySlot(way))))
    else g == f
  }

  predicate FlushedUpTo(way: Way, d: Disk, e: Disk, copied: seq<Area>, i: nat)
    requires i <= |copied|
  {
    && FlushedArea(way, d.containerd, e.containerd, Containerd in copied, Containerd in copied[..i])
    && FlushedArea(way, d.docker, e.docker, Docker in copied, Docker in copied[..i])
  }

  lemma FlushedStep(way: Way, d: Disk, was: Disk, now: Disk, copied: seq<Area>, i: nat, ok: bool)
    requires i < |copied| && FlushedUpTo(way, d, was, copied, i)
    requires now == was.With(copied[i], now.At(copied[i]))
    requires FlushedArea(way, was.At(copied[i]), now.At(copied[i]), true, ok)
    ensures if ok then FlushedUpTo(way, d, now, copied, i + 1) else FlushedUpTo(way, d, now, copied, 0)
  {
    assert copied[..i + 1] == copied[..i] + [copied[i]];
    if copied[i] == Containerd {
      assert now.docker == was.docker;
    } else {
      assert now.containerd == was.containerd;
    }
  }

  // What a copy leaves in its slot: what was there, a whole copy of what the
  // area shows, or a partial one.
  predicate CopyMade(way: Way, f: Folders, g: Folders, ok: bool) {
    var s := CopySlot(way);
    && SlotOnly(way, f, g)
    && (Get(g, s) == Get(f, s) || (Get(g, s).Dir? && Get(g, s).what != Original && !IsGoodCopy(Get(g, s))))
    && (ok && IsOriginal(Shown(f)) ==> Get(g, s) == Dir(Copied(true, false), Shown(f).empty))
  }

  // Before the switch the copies' slots are free to change.
  lemma SlotFine(way: Way, h: Home, f: Folders, g: Folders, a: Area, s: State, tracked: bool, drive: bool)
    requires Fine(way, h, f, a, s, tracked, drive) && Moves(way, h)
    requires SlotOnly(way, f, g) && !IsOriginal(Get(g, CopySlot(way)))
    requires tracked ==> s.offered == {} && (if way == ToFolder then f.unit == NoUnit
                                             else s.phase != Switching || s.undoing || f.unit != NoUnit)
    ensures Fine(way, h, g, a, s, tracked, drive)
  {
  }

  lemma CopyMadeFine(
      way: Way, h: Home, f: Folders, g: Folders, ok: bool, a: Area, s: State, tracked: bool, drive: bool)
    requires Fine(way, h, f, a, s, tracked, drive) && Moves(way, h) && CopyMade(way, f, g, ok)
    requires Fits(way, h, f) && (tracked ==> s.offered == {} && s.phase == Copying)
    ensures Fine(way, h, g, a, s, tracked, drive)
    ensures ok ==> CopiedArea(way, h, f, g)
  {
    SlotFine(way, h, f, g, a, s, tracked, drive);
  }

  // --- what an undo or a recovery gives back ---

  // An area as it was, but for what is enabled and the slot of its copy.
  predicate BackAs(way: Way, f: Folders, g: Folders) {
    View(g) == View(Put(f, CopySlot(way), Get(g, CopySlot(way))))
  }

  // Both areas, and Docker may have written since.
  predicate PutBackAs(way: Way, was: Disk, back: Disk, now: Disk) {
    && BackAs(way, was.containerd, back.containerd) && BackAs(way, was.docker, back.docker)
    && KeptByStart(back.containerd, now.containerd) && KeptByStart(back.docker, now.docker)
  }

  lemma PutBackThrough(way: Way, home: Pair<Home>, start: Disk, ready: Disk, undone: Disk, back: Disk, now: Disk)
    requires CopiesOnly(way, home, start, ready)
    requires Same(undone, ready) && PutBackAs(way, undone, back, now)
    ensures PutBackAs(way, start, back, now)
  {
  }

  lemma CopiesOnlySelf(way: Way, home: Pair<Home>, d: Disk)
    ensures CopiesOnly(way, home, d, d)
  {
  }

  lemma CopiesOnlyUnits(way: Way, home: Pair<Home>, d: Disk, e: Disk)
    requires CopiesOnly(way, home, d, e)
    ensures e.containerd.unit == d.containerd.unit && e.docker.unit == d.docker.unit
  {
  }

  // No copy of these areas is left.
  predicate CopiesGone(way: Way, d: Disk, copied: seq<Area>) {
    forall a <- copied :: Get(d.At(a), CopySlot(way)).Missing?
  }

  // The area is back where the data was.
  predicate BackHome(way: Way, f: Folders) {
    if way == ToFolder then IsOriginal(f.live) && f.unit == NoUnit && !f.mounted
    else f.mounted && f.unit == BoundUnit && f.dropIn
  }

  predicate GivesBack(way: Way, h: Home, f: Folders) {
    if Moves(way, h) then BackHome(way, f) else way == ToFolder ==> f.unit == NoUnit
  }

  lemma RemovedMore(
      way: Way, home: Pair<Home>, d: Disk, was: Disk, now: Disk, copied: seq<Area>, i: nat, next: nat)
    requires i < |copied| && next == i + 1 && CopiesOnly(way, home, d, was) && Moves(way, home.At(copied[i]))
    requires now == was.With(copied[i], now.At(copied[i])) && SlotOnly(way, was.At(copied[i]), now.At(copied[i]))
    ensures CopiesOnly(way, home, d, now)
    ensures CopiesGone(way, was, copied[..i]) && Get(now.At(copied[i]), CopySlot(way)).Missing? ==>
              CopiesGone(way, now, copied[..next])
  {
    assert copied[..next] == copied[..i] + [copied[i]];
    forall a <- copied[..next] | CopiesGone(way, was, copied[..i]) && Get(now.At(copied[i]), CopySlot(way)).Missing?
      ensures Get(now.At(a), CopySlot(way)).Missing?
    {
      assert a != copied[i] ==> a in copied[..i] && now.At(a) == was.At(a);
    }
  }

  lemma SlotBackAs(way: Way, h: Home, f: Folders, m: Folders, g: Folders)
    requires View(m) == View(f) && SlotOnly(way, m, g) && GivesBack(way, h, f)
    ensures BackAs(way, f, g) && (Moves(way, h) ==> BackHome(way, g))
  {
  }

  // The area as a boot finds it.
  function Unmounted(f: Folders): Folders {
    f.(mounted := false)
  }

  // Docker, whenever it runs, now or after a boot, runs on what it had.
  predicate AtHome(way: Way, h: Home, f: Folders) {
    Moves(way, h) ==> IsOriginal(Sees(f)) && IsOriginal(Sees(Unmounted(f)))
  }

  // Docker, whenever it runs, runs on what it had or on a complete copy.
  predicate Served(way: Way, h: Home, f: Folders) {
    Moves(way, h) ==> GoodTree(Sees(f)) && GoodTree(Sees(Unmounted(f)))
  }

  predicate BothAtHome(way: Way, home: Pair<Home>, d: Disk) {
    AtHome(way, home.containerd, d.containerd) && AtHome(way, home.docker, d.docker)
  }

  predicate BothCopiesKept(way: Way, home: Pair<Home>, d: Disk) {
    CopyKept(way, home.containerd, d.containerd) && CopyKept(way, home.docker, d.docker)
  }

  // How an undo that ran ended. Put back: as the undos give, but for the copies,
  // and Docker on what it had. Not put back: a copy of all is still there. With no
  // step failing it is put back exactly when the undos can run, its copies gone;
  // and on a way back Docker is on what it had either way.
  predicate UndoEnded(
      way: Way, home: Pair<Home>, was: Disk, us: seq<Undo>, copied: seq<Area>, drive: bool, calm: bool, putBack: bool,
      back: Disk, now: Disk) {
    && (putBack ==> BothAtHome(way, home, now) && PutBackAs(way, Undone(was, us), back, now) && Runs(was, us, drive))
    && (!putBack ==> BothCopiesKept(way, home, now))
    && (calm && Runs(was, us, drive) ==> putBack && (drive ==> CopiesGone(way, back, copied)))
    && (calm && drive && way == ToDefault ==> BothAtHome(way, home, now))
  }

  // Docker started after it.
  lemma UndoEndedStarted(
      way: Way, home: Pair<Home>, was: Disk, us: seq<Undo>, copied: seq<Area>, drive: bool, calm: bool, putBack: bool,
      back: Disk, now: Disk)
    requires UndoEnded(way, home, was, us, copied, drive, calm, putBack, back, back)
    requires Safe(way, home.containerd, back.containerd) && Safe(way, home.docker, back.docker)
    requires KeptByStart(back.containerd, now.containerd) && KeptByStart(back.docker, now.docker)
    ensures UndoEnded(way, home, was, us, copied, drive, calm, putBack, back, now)
  {
  }

  lemma BackHomeSees(way: Way, h: Home, f: Folders)
    requires Safe(way, h, f) && (Moves(way, h) ==> BackHome(way, f))
    ensures AtHome(way, h, f)
  {
  }

  // --- where a move starts from ---

  // CheckTarget let a move to a folder start.
  predicate FitsFolder(h: Home, f: Folders) {
    && Safe(ToFolder, h, f)
    && f.aside.Missing? && EmptyOrMissing(f.far) && f.unit == NoUnit && !f.mounted
    && (h == Nowhere ==> f.live.Missing?)
  }

  // CheckTarget let a move back start, from a folder a move had gone to.
  predicate FitsDefault(h: Home, f: Folders) {
    && Safe(ToDefault, h, f)
    && f.incoming.Missing?
    && (h == InFar ==> f.mounted && f.unit == BoundUnit && f.dropIn && f.live == Dir(Made, true))
  }

  predicate Fits(way: Way, h: Home, f: Folders) {
    if way == ToFolder then FitsFolder(h, f) else FitsDefault(h, f)
  }

  predicate Ready(way: Way, h: Home, f: Folders) {
    if way == ToFolder then ReadyForFolder(h, f) else ReadyForDefault(h, f)
  }

  predicate Switched(way: Way, h: Home, f: Folders, g: Folders, a: Area, us: seq<Undo>) {
    if way == ToFolder then SwitchedToFolder(h, f, g) else SwitchedToDefault(f, g, a, us)
  }

  // A start that copied and flushed what it moves is ready to switch.
  lemma CopiesMakeReady(way: Way, h: Home, f: Folders, m: Folders, g: Folders)
    requires Fits(way, h, f) && CopiedArea(way, h, f, m) && FlushedArea(way, m, g, Moves(way, h), true)
    ensures Ready(way, h, g) && SlotOnly(way, f, g)
  {
  }

  lemma AllCopiesReady(way: Way, home: Pair<Home>, start: Disk, was: Disk, now: Disk, copied: seq<Area>)
    requires Fits(way, home.containerd, start.containerd) && Fits(way, home.docker, start.docker)
    requires CopiedUpTo(way, home, start, was, copied, 2)
    requires FlushedUpTo(way, was, now, copied, |copied|)
    ensures Ready(way, home.containerd, now.containerd) && Ready(way, home.docker, now.docker)
  {
    assert copied[..|copied|] == copied;
    assert Containerd in copied ==> Moves(way, home.At(Containerd));
    assert Docker in copied ==> Moves(way, home.At(Docker));
    CopiesMakeReady(way, home.containerd, start.containerd, was.containerd, now.containerd);
    CopiesMakeReady(way, home.docker, start.docker, was.docker, now.docker);
  }

  lemma CopiesLeaveHome(way: Way, h: Home, f: Folders, g: Folders)
    requires Fits(way, h, f) && SlotOnly(way, f, g)
    ensures AtHome(way, h, g)
  {
  }

  // Docker started again on a disk where nothing but copies changed.
  lemma StartedBack(way: Way, home: Pair<Home>, start: Disk, back: Disk, now: Disk)
    requires Fits(way, home.containerd, start.containerd) && Fits(way, home.docker, start.docker)
    requires CopiesOnly(way, home, start, back)
    requires now == back || (KeptByStart(back.containerd, now.containerd) && KeptByStart(back.docker, now.docker))
    ensures AtHome(way, home.containerd, now.containerd) && AtHome(way, home.docker, now.docker)
    ensures PutBackAs(way, start, back, now)
  {
  }

  lemma ReadyGivesBack(way: Way, h: Home, f: Folders)
    requires Safe(way, h, f) && Ready(way, h, f)
    ensures GivesBack(way, h, f)
  {
  }

  lemma {:induction false} UndoneFars(d: Disk, us: seq<Undo>)
    ensures Fars(Undone(d, us)) == Fars(d)
    decreases |us|
  {
    if us != [] {
      UndoneFars(Apply(us[|us| - 1], d), us[..|us| - 1]);
    }
  }

  lemma {:induction false} UndoneOther(d: Disk, us: seq<Undo>, a: Area)
    requires forall u <- us :: u.a != a
    ensures Undone(d, us).At(a) == d.At(a)
    decreases |us|
  {
    if us != [] {
      UndoneOther(Apply(us[|us| - 1], d), us[..|us| - 1], a);
    }
  }

  // Docker ran from the new place and failed: the undos still give the data back.
  lemma StartedGivesBack(
      way: Way, home: Pair<Home>, ready: Disk, switched: Disk, started: Disk, us: seq<Undo>, a: Area)
    requires Safe(way, home.At(a), ready.At(a)) && Ready(way, home.At(a), ready.At(a))
    requires Undoable(way, home, switched, us) && Same(Undone(switched, us), ready)
    requires Switched(way, home.At(a), ready.At(a), switched.At(a), a, us)
    requires KeptByStart(switched.At(a), started.At(a))
    ensures GivesBack(way, home.At(a), Undone(started, us).At(a))
  {
    if way == ToDefault {
      if Moves(way, home.At(a)) {
        UndoneMounts(started, us, a);
        UndoneUnits(started, switched, us, a);
      }
    } else if Moves(way, home.At(a)) {
      UndoneAlike(started, switched, us, a);
    } else {
      UndoneOther(started, us, a);
    }
  }

  lemma StartedUndoable(way: Way, home: Pair<Home>, was: Disk, now: Disk, us: seq<Undo>)
    requires Undoable(way, home, was, us)
    requires forall a :: KeptByStart(was.At(a), now.At(a))
    requires way == ToFolder ==> forall a :: was.At(a).mounted || was.At(a).unit == NoUnit
    ensures Undoable(way, home, now, us)
  {
  }

  // A copy brought in under a mount cannot go back.
  lemma {:induction false} MountedCannotRun(d: Disk, us: seq<Undo>, a: Area, drive: bool)
    requires d.At(a).mounted && IncomingBack(a) in us && forall u <- us :: !u.Unmount?
    ensures !Runs(d, us, drive)
    decreases |us|
  {
    var rest, u := us[..|us| - 1], us[|us| - 1];
    assert us == rest + [u];
    if u != IncomingBack(a) {
      MountedCannotRun(Apply(u, d), rest, a, drive);
    }
  }

  // Once Docker was started the undos can run exactly when no mount of a way back
  // came back with it, its unit and drop-in not gone.
  lemma StartedRuns(
      way: Way, home: Pair<Home>, ready: Disk, switched: Disk, started: Disk, us: seq<Undo>, drive: bool)
    requires Safe(way, home.containerd, ready.containerd) && Safe(way, home.docker, ready.docker)
    requires Ready(way, home.containerd, ready.containerd) && Ready(way, home.docker, ready.docker)
    requires Undoable(way, home, switched, us) && Runs(switched, us, drive)
    requires Switched(way, home.containerd, ready.containerd, switched.containerd, Containerd, us)
    requires Switched(way, home.docker, ready.docker, switched.docker, Docker, us)
    requires KeptByStart(switched.containerd, started.containerd) && KeptByStart(switched.docker, started.docker)
    ensures Runs(started, us, drive) <==> !Remounted(way, home, started)
  {
    if Remounted(way, home, started) {
      var a := if home.containerd == InFar && started.containerd.mounted then Containerd else Docker;
      assert forall u <- us :: UndoFits(way, home.At(u.a), switched.At(u.a), u);
      MountedCannotRun(started, us, a, drive);
    } else {
      StartedKin(way, home.containerd, ready.containerd, switched, started.containerd, us, home, Containerd);
      StartedKin(way, home.docker, ready.docker, switched, started.docker, us, home, Docker);
      RunsKin(switched, started, us, drive);
    }
  }

  predicate Remounted(way: Way, home: Pair<Home>, d: Disk) {
    way == ToDefault
        && ((home.containerd == InFar && d.containerd.mounted) || (home.docker == InFar && d.docker.mounted))
  }

  // A way back whose unit and drop-in would not go: Docker's start mounts the old
  // data again. The undos then cannot run, and Docker is on what it had, the copy
  // still in the live folder under the mount.
  lemma MountReturns()
    ensures var ready := Folders(Dir(Made, true), Missing, Dir(Copied(true, true), false), Dir(Original, false), [],
                                 BoundUnit, true, true, true);
            var mid := ready.(mounted := false, enabled := false);
            var switched := mid.(live := ready.incoming, incoming := Missing);
            var us := LeavingUndos(Docker, ready) + [IncomingBack(Docker)];
            var started, home := ServiceStarted(switched, true), Pair(Nowhere, InFar);
            && ReadyForDefault(InFar, ready) && AreaLeaving(Docker, ready, mid, switched, us, true)
            && CheckSwitched(ToDefault, Pair(NoArea, switched), true) && KeptByStart(switched, started)
            && Runs(Pair(NoArea, switched), us, true) && Remounted(ToDefault, home, Pair(NoArea, started))
            && !Runs(Pair(NoArea, started), us, true)
            && AtHome(ToDefault, InFar, started) && CopyKept(ToDefault, InFar, started)
  {
    var ready := Folders(Dir(Made, true), Missing, Dir(Copied(true, true), false), Dir(Original, false), [],
                         BoundUnit, true, true, true);
    var mid := ready.(mounted := false, enabled := false);
    var switched := mid.(live := ready.incoming, incoming := Missing);
    var us := LeavingUndos(Docker, ready) + [IncomingBack(Docker)];
    var started := ServiceStarted(switched, true);
    AreaLeavingUndone(Docker, Pair(NoArea, ready), mid, Pair(NoArea, switched), us, true);
    assert us[3] == IncomingBack(Docker);
    MountedCannotRun(Pair(NoArea, started), us, Docker, true);
  }

  lemma StartedKin(
      way: Way, h: Home, ready: Folders, switched: Disk, started: Folders, us: seq<Undo>, home: Pair<Home>, a: Area)
    requires Undoable(way, home, switched, us) && home.At(a) == h && Safe(way, h, ready) && Ready(way, h, ready)
    requires Switched(way, h, ready, switched.At(a), a, us)
    requires KeptByStart(switched.At(a), started)
    requires way == ToDefault && h == InFar ==> !started.mounted
    ensures Kin(switched.At(a), started, us, a)
  {
    if Concerns(us, a) {
      var u :| u in us && u.a == a;
      assert UndoFits(way, h, switched.At(a), u);
      assert FoldersBack(a) in us ==> UndoFits(way, h, switched.At(a), FoldersBack(a));
      assert IncomingBack(a) in us ==> UndoFits(way, h, switched.At(a), IncomingBack(a));
    }
  }

  lemma StartedMayBackOut(
      way: Way, home: Pair<Home>, ready: Disk, switched: Disk, started: Disk, us: seq<Undo>, drive: bool)
    requires Safe(way, home.containerd, ready.containerd) && Safe(way, home.docker, ready.docker)
    requires Ready(way, home.containerd, ready.containerd) && Ready(way, home.docker, ready.docker)
    requires Undoable(way, home, switched, us) && Same(Undone(switched, us), ready)
    requires Switched(way, home.containerd, ready.containerd, switched.containerd, Containerd, us)
    requires Switched(way, home.docker, ready.docker, switched.docker, Docker, us)
    requires KeptByStart(switched.containerd, started.containerd) && KeptByStart(switched.docker, started.docker)
    ensures Undoable(way, home, started, us)
    ensures Runs(switched, us, drive) ==> (Runs(started, us, drive) <==> !Remounted(way, home, started))
    ensures Mending(way, home, switched, us) ==> Mending(way, home, started, us)
    ensures GivesBack(way, home.containerd, Undone(started, us).containerd)
    ensures GivesBack(way, home.docker, Undone(started, us).docker)
    ensures CopyKept(way, home.containerd, started.containerd) && CopyKept(way, home.docker, started.docker)
  {
    StartedGivesBack(way, home, ready, switched, started, us, Containerd);
    StartedGivesBack(way, home, ready, switched, started, us, Docker);
    forall a
      ensures KeptByStart(switched.At(a), started.At(a))
      ensures way == ToFolder ==> switched.At(a).mounted || switched.At(a).unit == NoUnit
    {
      assert a == Containerd || a == Docker;
    }
    StartedUndoable(way, home, switched, started, us);
    if Runs(switched, us, drive) {
      StartedRuns(way, home, ready, switched, started, us, drive);
    }
  }

  // A switch Docker started from stands, and serves it.
  lemma SwitchedStands(way: Way, h: Home, ready: Folders, switched: Folders, now: Folders, a: Area, us: seq<Undo>)
    requires Safe(way, h, ready) && Ready(way, h, ready) && Switched(way, h, ready, switched, a, us)
    requires KeptByStart(switched, now)
    ensures SwitchStands(way, h, now)
  {
  }

  // A switch that ended may be recorded as such.
  lemma SwitchedMayStart(
      way: Way, h: Home, f: Folders, g: Folders, a: Area, us: seq<Undo>, s: State, drive: bool)
    requires Safe(way, h, f) && Ready(way, h, f) && Switched(way, h, f, g, a, us)
    requires Fine(way, h, g, a, s, true, drive) && s.offered == {}
    ensures Fine(way, h, g, a, State(Starting, false, {}), true, drive)
  {
  }

  // A move whose switch stands may be recorded as done, and what it offers for
  // deletion is never the only whole tree.
  lemma StandingMayFinish(
      way: Way, home: Pair<Home>, d: Disk, a: Area, s: State, drive: bool, locatedFar: bool)
    requires Fine(way, home.At(a), d.At(a), a, s, true, drive) && SwitchStands(way, home.At(a), d.At(a))
    ensures Fine(way, home.At(a), d.At(a), a, State(Done, false, Offers(way, d, drive, locatedFar)), true, drive)
    ensures Served(way, home.At(a), d.At(a))
  {
  }

  // --- recovery ---

  function CutTree(t: Tree, gone: bool): Tree {
    if gone && t.Dir? && t.what == Copied(true, false) then t.(what := Copied(false, false)) else t
  }

  // The machine goes off: nothing is mounted, and a copy that never reached the
  // disk may be partial.
  function PowerCut(f: Folders, gone: bool): Folders {
    f.(mounted := false, live := CutTree(f.live, gone), incoming := CutTree(f.incoming, gone),
        far := CutTree(f.far, gone))
  }

  // What a boot can make of an area: its unit mounts, when it is enabled and can,
  // or does not; and its service starts, or does not.
  predicate Booted(f: Folders, g: Folders, gone: bool, drive: bool) {
    var off := PowerCut(f, gone);
    || g == off || g == ServiceStarted(off, drive)
    || (off.enabled && CanMount(off, drive) && (g == MountedOn(off) || g == ServiceStarted(MountedOn(off), drive)))
  }

  lemma PowerCutFine(
      way: Way, h: Home, f: Folders, a: Area, s: State, tracked: bool, drive: bool, gone: bool, back: bool)
    requires Fine(way, h, f, a, s, tracked, drive)
    ensures Fine(way, h, PowerCut(f, gone), a, s, tracked, back)
    ensures f.far.Dir? ==> PowerCut(f, gone).far.Dir?
  {
  }

  // The data that waits next to a live folder for a switch to be put back.
  predicate Waiting(way: Way, f: Folders) {
    if way == ToFolder then f.aside.Dir? else f.incoming.Dir?
  }

  // A folder Docker filled at boot is set aside, and kept; ok: none is in the way.
  predicate BootSetAside(way: Way, f: Folders, g: Folders, ok: bool) {
    && (g == f || (Waiting(way, f) && !f.mounted && g.live in {Missing, Dir(Made, true)} &&
                   g == f.(live := g.live, boots := f.boots + [f.live])))
    && (ok && Waiting(way, g) ==> EmptyOrMissing(Shown(g)) || g.mounted)
  }

  lemma BootSetAsideFine(
      way: Way, h: Home, f: Folders, g: Folders, ok: bool, a: Area, s: State, tracked: bool, drive: bool)
    requires Fine(way, h, f, a, s, tracked, drive) && BootSetAside(way, f, g, ok)
    requires tracked ==> s.offered == {} && s.phase in {Stopping, Copying, Switching}
    ensures Fine(way, h, g, a, s, tracked, drive)
  {
  }

  // Something is where the folder set aside has to come back.
  predicate InTheWay(f: Folders) {
    f.aside.Dir? && !EmptyOrMissing(f.live)
  }

  // ... and a mount over it hides it.
  predicate Buried(f: Folders) {
    f.mounted && InTheWay(f)
  }

  // A cut switch to a folder that no recovery can put back as it is.
  predicate Blocked(way: Way, s: State, d: Disk) {
    way == ToFolder && s.phase == Switching && (Buried(d.containerd) || Buried(d.docker))
  }

  // A cut switch that a recovery keeps.
  predicate Keeps(way: Way, s: State, d: Disk, drive: bool) {
    s.phase == Starting || (s.phase == Switching && !s.undoing && SwitchDone(way, d, drive))
  }

  // What was filled at boot is moved out of the way, but under a mount.
  lemma SetAsideWay(f: Folders, g: Folders)
    requires BootSetAside(ToFolder, f, g, true)
    ensures InTheWay(g) <==> Buried(f)
    ensures g.mounted == f.mounted && g.unit == f.unit
  {
  }

  // An undo removed the drop-in of an area, could not remove its unit, and was cut.
  // A boot without the mount lets Docker fill the live folder; the next one mounts
  // over it.
  lemma BuriedByBoots()
    ensures var switched := Folders(Dir(Made, true), Dir(Original, false), Missing, Dir(Copied(true, true), false), [],
                                    BoundUnit, true, true, false);
            var cut := switched.(dropIn := false);
            var filled := cut.(live := Dir(Made, false));
            var s := State(Switching, true, {});
            && UndoStepped(UnitsBack(Docker, NoUnit, false), switched, cut, false, false)
            && Booted(cut, filled, false, true) && Booted(filled, BuriedDocker, false, true)
            && Fine(ToFolder, InLive, BuriedDocker, Docker, s, true, true)
            && Blocked(ToFolder, s, Pair(NoArea, BuriedDocker)) && !Keeps(ToFolder, s, Pair(NoArea, BuriedDocker), true)
  {
    var cut := Folders(Dir(Made, true), Dir(Original, false), Missing, Dir(Copied(true, true), false), [],
                       BoundUnit, false, true, false);
    var filled := cut.(live := Dir(Made, false));
    assert PowerCut(cut, false) == cut && PowerCut(filled, false) == filled;
    assert ServiceStarted(cut, true) == filled && MountedOn(filled) == BuriedDocker;
  }

  const BuriedDocker: Folders :=
    Folders(Dir(Made, false), Dir(Original, false), Missing, Dir(Copied(true, true), false), [], BoundUnit, false,
        true, true)

  // The unit and the drop-in of an area go, once its mount has stopped.
  predicate UnitsGone(f: Folders, g: Folders, ok: bool) {
    && (g == f || (View(g) == View(f).(mounted := if f.unit == NoUnit then f.mounted else false,
                                       unit := g.unit, dropIn := g.dropIn) &&
                   (g.unit == f.unit || g.unit == NoUnit)))
    && (ok ==> g.unit == NoUnit && (f.unit != NoUnit ==> !g.mounted))
  }

  lemma UnitsGoneFine(
      h: Home, f: Folders, g: Folders, ok: bool, a: Area, s: State, tracked: bool, drive: bool)
    requires Fine(ToFolder, h, f, a, s, tracked, drive) && UnitsGone(f, g, ok)
    requires tracked ==> s.offered == {} && s.phase == Switching
    ensures Fine(ToFolder, h, g, a, s, tracked, drive)
    ensures ok && tracked ==> !g.mounted
  {
  }

  // The live folder is made ready for its mount: what was switched goes aside.
  predicate Rebound(f: Folders, g: Folders, ok: bool) {
    && (g.live == f.live || g.live in {Missing, Dir(Made, true)})
    && ((g == f.(live := g.live, unit := g.unit, dropIn := g.dropIn) && (g.live == f.live || f.live.Missing?)) ||
        (CanRename(f, Live, Incoming) && !EmptyOrMissing(f.live) &&
         g == f.(live := g.live, incoming := f.live, unit := g.unit, dropIn := g.dropIn)))
    && (g.unit == f.unit || g.unit != NoUnit)
    && (ok ==> g.unit == BoundUnit && g.dropIn)
  }

  lemma ReboundFine(
      h: Home, f: Folders, g: Folders, ok: bool, a: Area, s: State, tracked: bool, drive: bool)
    requires Fine(ToDefault, h, f, a, s, tracked, drive) && Rebound(f, g, ok)
    requires h == InFar
    requires f.incoming.Dir? ==> EmptyOrMissing(Shown(f)) || f.mounted
    requires tracked ==> s.offered == {} && s.phase == Switching
    ensures Fine(ToDefault, h, g, a, s, tracked, drive)
  {
  }

  // The way back put back: every area Docker had in the folder is bound again.
  predicate BoundAgain(h: Home, f: Folders) {
    h == InFar ==> f.mounted && f.unit == BoundUnit && f.dropIn
  }

  // Put back to the default place.
  predicate BackInPlace(h: Home, f: Folders) {
    f.unit == NoUnit && (h == InLive ==> IsOriginal(f.live) && f.aside.Missing?)
  }

  // An area that was in the folder is still to be mounted from it.
  predicate StillBound(h: Home, f: Folders) {
    h == InFar ==> f.unit == BoundUnit && f.dropIn
  }

  // With the drive absent, that is all that leads Docker to its data.
  lemma AbsentHome(h: Home, f: Folders)
    requires Safe(ToDefault, h, f) && !f.mounted
    ensures AtHome(ToDefault, h, f) <==> StillBound(h, f)
  {
  }

  lemma CutBeforeSwitchIsHome(way: Way, h: Home, f: Folders, a: Area, s: State, drive: bool)
    requires Fine(way, h, f, a, s, true, drive) && (s.phase == Stopping || s.phase == Copying)
    ensures AtHome(way, h, f)
  {
  }

  // switchDone tells the truth: when it holds of a switch that is not being
  // undone, every area the move moves was switched.
  lemma SwitchDoneStands(way: Way, home: Pair<Home>, d: Disk, a: Area, s: State, drive: bool)
    requires Fine(way, home.containerd, d.containerd, Containerd, s, true, drive)
    requires Fine(way, home.docker, d.docker, Docker, s, true, drive)
    requires s.phase == Switching && !s.undoing && SwitchDone(way, d, drive)
    requires Moves(way, home.docker) && CopiesStay(way, home, d)
    ensures SwitchStands(way, home.At(a), d.At(a))
  {
  }

  // An area a switch back was cut in: docker's empty live folder removed, the copy
  // not yet renamed in its place.
  const CutLeaving: Folders :=
    Folders(Missing, Missing, Dir(Copied(true, true), false), Dir(Original, false), [], NoUnit, false, false, false)

  const NoArea: Folders := Folders(Missing, Missing, Missing, Missing, [], NoUnit, false, false, false)

  // A way back whose switch was cut there, the drive absent at the boot after.
  // Docker fills its live folder, the recovery sets that aside, finds nothing to
  // bind and reports no error, deletes the copy, and starts Docker, which fills the
  // folder again. Stopped before it writes this down, with the drive back, switchDone
  // holds of a folder Docker made: it is kept, and the only whole tree offered.
  lemma AwayKeepsBootFolder()
    ensures var booted := ServiceStarted(CutLeaving, false);
            var aside := booted.(live := Dir(Made, true), boots := [booted.live]);
            var dropped := aside.(incoming := Missing);
            var now := ServiceStarted(dropped, false);
            var d, home := Pair(NoArea, now), Pair(Nowhere, InFar);
            && Fine(ToDefault, InFar, CutLeaving, Docker, State(Switching, false, {}), true, false)
            && BootSetAside(ToDefault, booted, aside, true)
            && !FarThere(aside, false) && CheckSwitched(ToFolder, Pair(NoArea, aside), false)
            && SlotThere(aside, CopySlot(ToDefault), false)
                && !InUse(aside, CopySlot(ToDefault), LocatedFar(Pair(NoArea, aside)))
            && SwitchDone(ToDefault, d, true) && !SwitchStands(ToDefault, InFar, now)
            && Docker in Offers(ToDefault, d, true, LocatedFar(d)) && !SparesOne(ToDefault, now)
            && Intact(now, InFar) && IsOriginal(now.far) && !IsOriginal(now.live) && !IsOriginal(now.aside)
  {
  }

  // What Docker writes as it starts leaves it where it was served.
  lemma StartedServed(way: Way, h: Home, f: Folders, g: Folders)
    requires Safe(way, h, f) && KeptByStart(f, g)
    ensures Served(way, h, f) ==> Served(way, h, g)
    ensures AtHome(way, h, f) ==> AtHome(way, h, g)
  {
  }

  // No folder filled at boot is in the way of an area's data.
  predicate ClearedArea(way: Way, f: Folders) {
    Waiting(way, f) ==> EmptyOrMissing(Shown(f)) || f.mounted
  }

  // The folder set aside came back, when there is one.
  predicate FolderBrought(a: Area, f: Folders, g: Folders, ok: bool) {
    if f.aside.Missing? then g == f && ok else UndoStepped(FoldersBack(a), f, g, false, ok)
  }

  lemma FolderBroughtFine(
      h: Home, f: Folders, g: Folders, ok: bool, a: Area, s: State, tracked: bool, drive: bool)
    requires Fine(ToFolder, h, f, a, s, tracked, drive) && FolderBrought(a, f, g, ok)
    requires tracked ==> s.offered == {} && s.phase == Switching
    ensures Fine(ToFolder, h, g, a, s, tracked, drive)
    ensures g.unit == f.unit && g.mounted == f.mounted && g.far == f.far
    ensures ok && f.unit == NoUnit ==> BackInPlace(h, g)
  {
  }

  // A copy of the interrupted move went, or not; one Docker uses never does.
  predicate Dropped(way: Way, f: Folders, g: Folders, located: bool, drive: bool, ok: bool) {
    var s := CopySlot(way);
    && SlotOnly(way, f, g) && (IsOriginal(Get(g, s)) ==> IsOriginal(Get(f, s)))
    && (!SlotThere(f, s, drive) || InUse(f, s, located) ==> g == f)
    && (ok ==> !SlotThere(g, s, drive) || InUse(f, s, located))
  }

  // Nothing the state file promises rests on the copies of a move cut short.
  predicate Droppable(way: Way, home: Pair<Home>, d: Disk, s: State) {
    && s.offered == {}
    && s.phase in {Stopping, Copying, Switching}
    && (way == ToFolder ==> d.containerd.unit == NoUnit && d.docker.unit == NoUnit)
    && (way == ToDefault ==> (home.containerd == InFar ==> d.containerd.unit == BoundUnit) &&
                             (home.docker == InFar ==> d.docker.unit == BoundUnit))
  }

  lemma DroppedFine(
      way: Way, home: Pair<Home>, d: Disk, e: Disk, a: Area, s: State, tracked: bool, drive: bool, ok: bool)
    requires Fine(way, home.At(a), d.At(a), a, s, tracked, drive)
    requires e == d.With(a, e.At(a)) && Dropped(way, d.At(a), e.At(a), LocatedFar(d), drive, ok)
    requires tracked ==> Droppable(way, home, d, s)
    ensures Fine(way, home.At(a), e.At(a), a, s, tracked, drive)
    ensures tracked ==> Droppable(way, home, e, s) && CopiesStay(way, home, e)
    ensures LocatedFar(e) == LocatedFar(d)
  {
  }
}
