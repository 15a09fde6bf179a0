// A deployment of a git app: what it builds, switches in, judges and rolls back,
// with what it remembers. Docker, git and the remote are steps that may fail.
module GitDeploy {
  import opened Wrappers
  import opened GitTags

  const HistoryLength: nat := 3
  const AttemptedLength: nat := 20

  type Image = string

  datatype Trigger = Manual | Automatic | Restore

  datatype Outcome = Adopted | Deployed | BuildFailed | RolledBack | Failed | Interrupted

  datatype Deployment = Deployment(commit: Commit, tag: Option<string>, images: set<Image>)

  datatype Entry = Entry(commit: Commit, tag: Option<string>, outcome: Outcome, images: set<Image>)

  datatype Check = Check(commit: Option<Commit>, tag: Option<string>, failed: bool)

  // A deployment at its end: its entry, and the version that runs from then on.
  datatype Ending = Ending(entry: Entry, runs: Option<Deployment>)

  // How a request ends: refused before anything was touched, or carried out.
  datatype Ended = Refused | Done(outcome: Outcome)

  // What a version of the app is on the machine: the folder's commit, and the
  // one whose images its services' names point at.
  datatype Running = Running(folder: Commit, images: Commit)

  // How tags read, and which commits are ancestors of which.
  datatype Repo = Repo(wanted: Wanted, contains: (Commit, Commit) -> bool)
  {
    // A commit is an ancestor of itself.
    ghost predicate Reflexive() {
      forall c: Commit :: contains(c, c)
    }
  }

  // --- the history ---

  predicate Ran(e: Entry) {
    e.outcome == Deployed || e.outcome == Adopted
  }

  function Remember(e: Entry, history: seq<Entry>): seq<Entry> {
    var all := [e] + history;
    if |all| <= HistoryLength then all else all[..HistoryLength]
  }

  function Forgotten(e: Entry, history: seq<Entry>): seq<Entry> {
    var all := [e] + history;
    if |all| <= HistoryLength then [] else all[HistoryLength..]
  }

  // What stays of the history below a new entry.
  function Staying(history: seq<Entry>): seq<Entry> {
    if |history| < HistoryLength then history else history[..HistoryLength - 1]
  }

  function Named(entries: seq<Entry>): set<Image> {
    set e, i | e in entries && i in e.images :: i
  }

  function RunningImages(d: Option<Deployment>): set<Image> {
    match d case None => {} case Some(v) => v.images
  }

  // What the end of a deployment may remove: the images of the entries that
  // leave, but for those still named.
  function Removable(e: Entry, history: seq<Entry>, d: Option<Deployment>): set<Image> {
    Named(Forgotten(e, history)) - Named(Remember(e, history)) - RunningImages(d)
  }

  // The first entry of a commit that ran, or else its first.
  function EntryOf(history: seq<Entry>, c: Commit): Option<Entry> {
    match RanOf(history, c)
    case Some(e) => Some(e)
    case None => NewestOf(history, c)
  }

  function RanOf(history: seq<Entry>, c: Commit): (r: Option<Entry>)
    ensures r.Some? ==> r.value in history && r.value.commit == c && Ran(r.value)
    ensures r.None? ==> forall e <- history :: e.commit == c ==> !Ran(e)
  {
    if history == [] then None
    else if history[0].commit == c && Ran(history[0]) then Some(history[0])
    else RanOf(history[1..], c)
  }

  function NewestOf(history: seq<Entry>, c: Commit): (r: Option<Entry>)
    ensures r.Some? ==> r.value in history && r.value.commit == c
    ensures r.None? ==> forall e <- history :: e.commit != c
  {
    if history == [] then None
    else if history[0].commit == c then Some(history[0])
    else NewestOf(history[1..], c)
  }

  // A commit of the history is found when it is there, as a version that ran
  // when it ever did.
  lemma EntryOfFinds(history: seq<Entry>, c: Commit)
    ensures EntryOf(history, c).Some? <==> exists e <- history :: e.commit == c
    ensures EntryOf(history, c).Some? ==> EntryOf(history, c).value in history && EntryOf(history, c).value.commit == c
    ensures (EntryOf(history, c).Some? && Ran(EntryOf(history, c).value)) <==> exists e <- history ::
        e.commit == c && Ran(e)
  {
  }

  function LastAttempts(attempted: seq<Commit>, c: Commit): (r: seq<Commit>)
    ensures c in r
    ensures |attempted| <= AttemptedLength ==> |r| <= AttemptedLength
  {
    if c in attempted then attempted
    else
      var all := attempted + [c];
      assert all[|all| - 1] == c;
      if |all| > AttemptedLength then all[|all| - AttemptedLength..] else all
  }

  // Only the images of remembered and running versions stay named.
  lemma RemovableSpares(e: Entry, history: seq<Entry>, d: Option<Deployment>)
    ensures Removable(e, history, d) !! RunningImages(d)
    ensures forall x <- Remember(e, history) :: Removable(e, history, d) !! x.images
  {
  }

  lemma StayingSpared(e: Entry, history: seq<Entry>, d: Option<Deployment>)
    requires |history| <= HistoryLength
    ensures Remember(e, history) == [e] + Staying(history)
    ensures forall x <- Staying(history) :: x in history && Removable(e, history, d) !! x.images
  {
    RemovableSpares(e, history, d);
    var now := Remember(e, history);
    assert now == [e] + Staying(history);
    forall x <- Staying(history)
      ensures x in now && x in history
    {
      var i :| 0 <= i < |Staying(history)| && Staying(history)[i] == x;
      assert now[i + 1] == x;
    }
  }

  // The end of a deployment that landed and is not written down yet: what it
  // removes of the version the record still names is what that version shares
  // with the entry that leaves, and with nothing that stays or now runs.
  lemma EndSpares(e: Entry, history: seq<Entry>, now: Deployment, was: Deployment)
    requires |history| <= HistoryLength
    ensures Removable(e, history, Some(now)) !! was.images <==>
              |history| < HistoryLength
              || was.images * history[HistoryLength - 1].images <= e.images + Named(Staying(history)) + now.images
  {
    RemembersNamed(e, history);
    if |history| == HistoryLength {
      var last := history[HistoryLength - 1];
      assert Forgotten(e, history) == [last];
      assert Named([last]) == last.images by { assert last in [last]; }
      forall i <- was.images * last.images
        ensures i in Removable(e, history, Some(now)) <==> i !in e.images + Named(Staying(history)) + now.images
      {
      }
    } else {
      assert Forgotten(e, history) == [];
    }
  }

  lemma RemembersNamed(e: Entry, history: seq<Entry>)
    requires |history| <= HistoryLength
    ensures Named(Remember(e, history)) == e.images + Named(Staying(history))
  {
    StayingSpared(e, history, None);
    assert forall x :: x in [e] + Staying(history) <==> x == e || x in Staying(history);
  }

  lemma AllThere(images: set<Image>, docker: set<Image>, gone: set<Image>)
    requires images - docker == images * gone
    ensures images <= docker <==> images !! gone
  {
    assert forall i <- images :: i in docker <==> i !in images - docker;
  }

  // Two failed builds put the running version at the end of the history, and the
  // next deployment that lands removes its images: stopped before it is written
  // down, the record names a version whose images are gone.
  lemma EndRemovesRunning()
    ensures var was, h := Deployment(1, None, {"d"}),
                          [Entry(3, None, BuildFailed, {}), Entry(2, None, BuildFailed, {}),
                              Entry(1, None, Deployed, {"d"})];
            var e, now := Entry(4, None, Deployed, {"n"}), Deployment(4, None, {"n"});
            "d" in Removable(e, h, Some(now)) * RunningImages(Some(was))
  {
    var h := [Entry(3, None, BuildFailed, {}), Entry(2, None, BuildFailed, {}), Entry(1, None, Deployed, {"d"})];
    var e := Entry(4, None, Deployed, {"n"});
    assert Forgotten(e, h) == [h[2]];
    assert Remember(e, h) == [e, h[0], h[1]];
    assert h[2] in Forgotten(e, h);
  }

  // Everything that leaves the history leaves no image behind that nothing names.
  lemma RemovableAll(e: Entry, history: seq<Entry>, d: Option<Deployment>, i: Image)
    requires i in Named([e] + history)
    ensures i in Removable(e, history, d) || i in Named(Remember(e, history)) || i in RunningImages(d)
  {
    var x :| x in [e] + history && i in x.images;
    assert [e] + history == Remember(e, history) + Forgotten(e, history);
  }

  // A version known by a higher tag of its commit.
  function Promoted(history: seq<Entry>, c: Commit, tag: Option<string>): (r: seq<Entry>)
    ensures |r| == |history|
    ensures forall i :: 0 <= i < |r| ==>
              r[i] == history[i] || (history[i].commit == c && Ran(history[i]) && r[i] == history[i].(tag := tag))
  {
    if history == [] then []
    else if history[0].commit == c && Ran(history[0]) then [history[0].(tag := tag)] + history[1..]
    else [history[0]] + Promoted(history[1..], c, tag)
  }

  class App {
    const repo: Repo
    const well: bool                  // no step fails, and the remote has what it is asked for

    // what the state file says
    var adoptable: bool               // it runs from a folder nobody deployed yet
    var tags: bool                    // it follows tags, not a branch
    var cloned: bool
    var auto: bool
    var paused: bool
    var blocked: bool
    var deployed: Option<Deployment>
    var check: Option<Check>
    var history: seq<Entry>
    var attempted: seq<Commit>

    // the machine
    var folder: Commit
    var tagged: Option<Commit>        // whose images the services' names point at
    var running: Option<Running>      // what was last started
    var docker: set<Image>

    // A registered app, not cloned yet, or one to adopt from its folder.
    constructor (repo: Repo, well: bool, adoptable: bool, folder: Commit)
      requires repo.Reflexive()
      ensures this.repo == repo && this.well == well && this.adoptable == adoptable && this.folder == folder
      ensures Kept() && Sound() && deployed.None? && history == [] && attempted == []
      ensures !tags && cloned == adoptable && !auto && !paused && !blocked && check.None? && docker == {}
    {
      this.repo, this.well, this.adoptable, this.folder := repo, well, adoptable, folder;
      tags, cloned, auto, paused, blocked := false, adoptable, false, false, false;
      deployed, check, history, attempted := None, None, [], [];
      tagged, running, docker := None, None, {};
    }

    // An app that is not blocked runs the version it says it deployed.
    ghost predicate Sound()
      reads this
    {
      deployed.Some? && !blocked ==>
        var c := deployed.value.commit;
        folder == c && tagged == Some(c) && running == Some(Running(c, c))
    }

    // The images of the running version and of those to revert to are there.
    ghost predicate Kept()
      reads this
    {
      && repo.Reflexive() && (adoptable ==> deployed.None? && history == [] && cloned && !tags)
      && (deployed.Some? ==> cloned) && (!tags && check.Some? ==> check.value.tag.None?)
      && RunningImages(deployed) <= docker
      && (forall e <- history :: Ran(e) ==> e.images <= docker)
      && |history| <= HistoryLength && |attempted| <= AttemptedLength
    }

    // --- the steps ---

    // git merge --ff-only or git reset --keep: it moves the folder or nothing.
    method Move(c: Commit, fastForward: bool) returns (ok: bool)
      modifies `folder
      ensures folder == if ok then c else old(folder)
      ensures ok && fastForward ==> repo.contains(c, old(folder))
      ensures well && (fastForward ==> repo.contains(c, old(folder))) ==> ok
    {
      ok := *;
      ok := (ok || well) && (fastForward ==> repo.contains(c, folder));
      if ok {
        folder := c;
      }
    }

    // The services' names point at the images of c, or at who knows which.
    method Retag(c: Commit) returns (ok: bool)
      modifies `tagged
      ensures (well ==> ok) && tagged == if ok then Some(c) else None
    {
      ok := *;
      ok := ok || well;
      tagged := if ok then Some(c) else None;
    }

    method Start() returns (ok: bool)
      requires tagged.Some?
      modifies `running
      ensures (well ==> ok) && running == if ok then Some(Running(folder, tagged.value)) else None
    {
      ok := *;
      ok := ok || well;
      running := if ok then Some(Running(folder, tagged.value)) else None;
    }

    // The images names point at, then a start.
    method RetagAndStart(c: Commit) returns (ok: bool)
      requires folder == c
      modifies `tagged, `running
      ensures (well ==> ok) && (ok ==> tagged == Some(c) && running == Some(Running(c, c)))
    {
      ok := Retag(c);
      if ok {
        ok := Start();
      }
    }

    // A build makes images even when it fails.
    method Build() returns (images: set<Image>, ok: bool)
      modifies `docker
      ensures if ok then docker == old(docker) + images else old(docker) <= docker && images == {}
      ensures well ==> ok
    {
      var made: set<Image> := *;
      ok := *;
      ok := ok || well;
      docker := docker + made;
      images := if ok then made else {};
    }

    method RemoveImages(images: set<Image>)
      modifies `docker
      ensures old(docker) - images <= docker <= old(docker)
    {
      if images != {} {
        var gone: set<Image> := *;
        docker := docker - (images * gone);
      }
    }

    // --- the records ---

    // record: the entry at the top of the history, and what no remembered
    // version names any more removed.
    method Finish(e: Entry)
      requires Kept() && !adoptable && (Ran(e) ==> e.images <= docker)
      modifies `history, `docker
      ensures Kept() && history == Remember(e, old(history))
    {
      RemovableSpares(e, history, deployed);
      RemoveImages(Removable(e, history, deployed));
      Save(e);
    }

    // saveGitApp: the record reaches the state file after the images are gone.
    method Save(e: Entry)
      modifies `history
      ensures history == Remember(e, old(history))
    {
      history := Remember(e, history);
    }

    // failGitDeploy: nothing of what runs changes, and the commit is not tried
    // again by itself.
    method Fail(target: Commit, tag: Option<string>, images: set<Image>, outcome: Outcome)
      requires Kept() && !adoptable && outcome in {BuildFailed, RolledBack, Failed}
      modifies `history, `docker, `attempted
      ensures Kept() && history == Remember(Entry(target, tag, outcome, images), old(history))
      ensures attempted == LastAttempts(old(attempted), target) && target in attempted
    {
      attempted := LastAttempts(attempted, target);
      Finish(Entry(target, tag, outcome, images));
    }

    // rollBackGitDeploy: the previous version back, or the app blocked.
    method RollBack(target: Commit, tag: Option<string>, images: set<Image>) returns (outcome: Outcome)
      requires Kept() && !adoptable
      modifies this
      ensures Kept() && Sound() && deployed == old(deployed) && StillSet()
      ensures outcome == if old(deployed).Some? && !blocked then RolledBack else Failed
      ensures well && old(deployed).Some? ==> outcome == RolledBack
      ensures old(deployed).None? ==> blocked == old(blocked)
      ensures target in attempted && history == Remember(Entry(target, tag, outcome, images), old(history))
    {
      outcome := Failed;
      if deployed.Some? {
        var c := deployed.value.commit;
        var ok := Move(c, false);
        if ok {
          ok := RetagAndStart(c);
        }
        blocked := !ok;
        outcome := if ok then RolledBack else Failed;
      } else {
        running := None;
      }
      Fail(target, tag, images, outcome);
    }

    // What no deployment changes of the settings.
    twostate predicate StillSet()
      reads this
    {
      adoptable == old(adoptable) && tags == old(tags) && cloned == old(cloned)
      && auto == old(auto) && paused == old(paused) && check == old(check)
    }

    // --- a deployment ---

    // A repair: the running version deployed again.
    predicate Redeploys(target: Commit)
      reads this
    {
      deployed.Some? && target == deployed.value.commit
    }

    // gitFolderContainedIn: no commit made by hand in the folder would be dropped.
    predicate FolderContained(was: Commit, target: Commit)
      reads this
    {
      folder == was || repo.contains(target, folder)
    }

    // fetchGitBranch: the target is on the branch and descends from what runs.
    method FetchBranch(target: Commit) returns (ok: bool, head: Commit)
      requires repo.Reflexive()
      ensures ok ==> repo.contains(head, target) && BranchAllows(target)
      ensures well && BranchAllows(target) ==> ok
    {
      head, ok := *, *;
      if well {
        head, ok := target, true;
      }
      ok := ok && repo.contains(head, target);
      ok := ok && (deployed.Some? && deployed.value.tag.None? ==> repo.contains(target, deployed.value.commit));
      ok := ok && (deployed.Some? ==> FolderContained(deployed.value.commit, target));
    }

    // The target follows what a branch runs, and drops no commit of the folder.
    predicate BranchAllows(target: Commit)
      reads this
    {
      && (deployed.Some? && deployed.value.tag.None? ==> repo.contains(target, deployed.value.commit))
      && (deployed.Some? ==> FolderContained(deployed.value.commit, target))
    }

    // fetchGitTag: the tag still names the target.
    method FetchTag(target: Commit) returns (ok: bool, fetched: Commit)
      ensures (ok ==> fetched == target) && (well ==> ok)
    {
      fetched, ok := *, *;
      if well {
        fetched, ok := target, true;
      }
      ok := ok && fetched == target;
    }

    // fetchAndBuild: what it leaves is the images, or the failure recorded.
    method FetchAndBuild(target: Commit, tag: Option<string>, trigger: Trigger)
        returns (images: set<Image>, failed: Option<Outcome>)
      requires Kept() && !adoptable
      modifies `docker, `history, `attempted
      ensures Kept()
      ensures failed.None? ==> docker == old(docker) + images && history == old(history) && attempted == old(attempted)
      ensures failed.None? && !tags ==> BranchAllows(target)
      ensures well && (tags || BranchAllows(target)) ==> failed.None?
      ensures failed.Some? ==> failed.value in {BuildFailed, Failed} && target in attempted
      ensures failed.Some? ==> Recorded(old(history), target, tag, failed.value)
    {
      var fetched, from := true, target;
      images := {};
      if !tags {
        fetched, from := FetchBranch(target);
      } else if trigger != Restore && !Redeploys(target) {
        fetched, from := FetchTag(target);
      }
      if !fetched {
        Fail(target, tag, {}, Failed);
        return images, Some(Failed);
      }
      var built;
      images, built := Build();
      if !built {
        Fail(target, tag, {}, BuildFailed);
        return images, Some(BuildFailed);
      }
      failed := None;
    }

    // How a deployment ended is the newest of the history.
    predicate Recorded(was: seq<Entry>, target: Commit, tag: Option<string>, outcome: Outcome)
      reads this
    {
      && history != [] && history == Remember(history[0], was)
      && history[0].commit == target && history[0].tag == tag && history[0].outcome == outcome
    }

    // What is switched in: the images of a version that ran, or new ones.
    method ImagesFor(target: Commit, tag: Option<string>, revert: bool, trigger: Trigger)
        returns (images: set<Image>, failed: Option<Outcome>)
      requires Kept() && !adoptable && (revert ==> CanRevert(target) && !Redeploys(target))
      modifies `docker, `history, `attempted
      ensures Kept()
      ensures failed.None? ==> images <= docker && history == old(history)
      ensures failed.None? && revert ==> images == EntryOf(history, target).value.images && docker == old(docker)
      ensures failed.None? && !revert ==> docker == old(docker) + images
      ensures failed.None? && !revert && !Redeploys(target) ==> tags || BranchAllows(target)
      ensures well && (revert || tags || BranchAllows(target)) ==> failed.None?
      ensures failed.Some? ==> !revert && failed.value in {BuildFailed, Failed} && target in attempted
      ensures failed.Some? ==> Recorded(old(history), target, tag, failed.value)
    {
      var there: bool := *;
      if revert {
        return EntryOf(history, target).value.images, None;
      }
      if Redeploys(target) && there && deployed.value.images <= docker {
        return deployed.value.images, None;
      }
      images, failed := FetchAndBuild(target, tag, trigger);
    }

    // gitRevertable, where the commit's presence is looked up beside.
    predicate CanRevert(target: Commit)
      reads this
    {
      var e := EntryOf(history, target);
      e.Some? && Ran(e.value) && !Redeploys(target) && e.value.images <= docker
    }

    predicate ByReset(revert: bool, target: Commit)
      reads this
    {
      deployed.None? || revert || Redeploys(target) || tags || deployed.value.tag.Some?
    }

    function TagOf(d: Option<Deployment>): Option<string> {
      match d case None => None case Some(v) => v.tag
    }

    // Going down by hand pauses the automatic rebuild.
    predicate PausedAfter(target: Commit, tag: Option<string>, revert: bool, trigger: Trigger)
      reads this
    {
      if trigger == Automatic || Redeploys(target) then paused
      else (revert && !tags) || Higher(repo.wanted.read, TagOf(deployed), tag)
    }

    // The version that runs from now on.
    method Land(target: Commit, tag: Option<string>, images: set<Image>, nowPaused: bool)
      requires Kept() && !adoptable && cloned && images <= docker
      requires folder == target && tagged == Some(target) && running == Some(Running(target, target))
      modifies `paused, `deployed, `blocked, `history, `docker
      ensures Kept() && Sound() && !blocked && paused == nowPaused
      ensures deployed == Some(Deployment(target, tag, images))
      ensures history == Remember(Entry(target, tag, Deployed, images), old(history))
    {
      deployed, blocked, paused := Some(Deployment(target, tag, images)), false, nowPaused;
      Finish(Entry(target, tag, Deployed, images));
    }

    // From the move of the folder on: the version lands, nothing changes, or
    // what ran before comes back.
    method SwitchIn(target: Commit, tag: Option<string>, images: set<Image>, revert: bool, trigger: Trigger)
        returns (outcome: Outcome)
      requires Kept() && !adoptable && cloned && images <= docker
      modifies this
      ensures Kept() && (old(Sound()) || outcome == Deployed || outcome == RolledBack ==> Sound())
      ensures outcome in {Deployed, RolledBack, Failed}
      ensures well && old(ByReset(revert, target) || repo.contains(target, folder)) ==> outcome == Deployed
      ensures adoptable == old(adoptable) && tags == old(tags) && cloned && auto == old(auto) && check == old(check)
      ensures outcome == Deployed ==> deployed == Some(Deployment(target, tag, images)) && !blocked
      ensures outcome == Deployed ==> paused == old(PausedAfter(target, tag, revert, trigger))
      ensures outcome != Deployed ==> deployed == old(deployed) && paused == old(paused) && target in attempted
      ensures history == Remember(Entry(target, tag, outcome, images), old(history))
    {
      var moved := Move(target, !ByReset(revert, target));
      if !moved {
        Fail(target, tag, images, Failed);
        return Failed;
      }
      var started := RetagAndStart(target);
      if started {
        Land(target, tag, images, PausedAfter(target, tag, revert, trigger));
        outcome := Deployed;
      } else {
        outcome := RollBack(target, tag, images);
      }
    }

    // runGitDeploy. However it ends, an app that was sound is, and one that
    // ends deployed or rolled back is, whatever it was.
    method RunDeploy(target: Commit, tag: Option<string>, revert: bool, trigger: Trigger) returns (outcome: Outcome)
      requires Kept() && !adoptable && cloned && (revert ==> CanRevert(target) && !Redeploys(target))
      modifies this
      ensures Kept() && (old(Sound()) || outcome == Deployed || outcome == RolledBack ==> Sound())
      ensures outcome in {Deployed, RolledBack, BuildFailed, Failed}
      ensures adoptable == old(adoptable) && tags == old(tags) && cloned && auto == old(auto) && check == old(check)
      ensures outcome == Deployed ==>
          deployed.Some? && deployed.value.commit == target && deployed.value.tag == tag && !blocked
      ensures outcome == Deployed ==> paused == old(PausedAfter(target, tag, revert, trigger))
      ensures outcome == Deployed && old(!Redeploys(target)) ==> revert || tags || old(BranchAllows(target))
      ensures well && (revert || tags || old(BranchAllows(target))) ==> outcome == Deployed
      ensures outcome != Deployed ==> deployed == old(deployed) && paused == old(paused) && target in attempted
      ensures outcome == Deployed && revert ==> deployed.value.images == EntryOf(old(history), target).value.images
      ensures Recorded(old(history), target, tag, outcome)
    {
      var reached: bool := *;
      if !reached && !well {
        Fail(target, tag, {}, Failed);
        return Failed;
      }
      var images, failed := ImagesFor(target, tag, revert, trigger);
      if failed.Some? {
        return failed.value;
      }
      outcome := SwitchIn(target, tag, images, revert, trigger);
    }

    // --- what starts one ---

    predicate RepairDue(target: Commit, tag: Option<string>)
      reads this
    {
      Redeploys(target) && (blocked || folder != target || tag != deployed.value.tag)
    }

    // The folder is on the version that runs.
    predicate FolderPut()
      reads this
    {
      deployed.Some? ==> folder == deployed.value.commit
    }

    // gitDeployPreconditions, but for the .env.
    method Preconditions(target: Commit, tag: Option<string>, revert: bool) returns (ok: bool)
      ensures ok ==> cloned
      ensures ok && Redeploys(target) ==> RepairDue(target, tag)
      ensures ok && revert && !Redeploys(target) ==> FolderPut() && CanRevert(target)
      ensures well && cloned && !Redeploys(target) && (revert ==> FolderPut() && CanRevert(target)) ==> ok
    {
      var clean: bool := *;
      if !cloned || !(clean || well) {
        return false;
      }
      if RepairDue(target, tag) {
        return tags || FolderContained(target, target);
      }
      if Redeploys(target) && !revert {
        return false;
      }
      if revert {
        var there: bool := *;
        return FolderPut() && (there || well) && CanRevert(target);
      }
      return true;
    }

    // What a request by hand, or a check, goes to: the commit, the tag it runs
    // as, and whether that goes back to a version that ran.
    method Choose(commit: Option<Commit>, tag: Option<string>, trigger: Trigger)
        returns (ok: bool, target: Commit, named: Option<string>, revert: bool)
      ensures ok && commit.Some? ==> target == commit.value
      ensures ok && commit.Some? && tag.Some? ==> named == tag
      ensures ok && commit.Some? && !tags && trigger == Automatic ==> named == None
      ensures ok && revert ==> EntryOf(history, target).Some?
      ensures ok && commit.Some? && !(tags && tag.None?) ==> revert == EntryOf(history, target).Some?
      ensures commit.Some? && (tags <==> tag.Some?) ==> ok
    {
      ok, target, named := true, if commit.Some? then commit.value else 0, tag;
      revert := commit.Some? && EntryOf(history, commit.value).Some?;
      if !tags && tag.Some? {
        ok := false;
      } else if !tags && commit.None? {
        target, ok := *, *;
      } else if !tags && trigger == Manual {
        var e := EntryOf(history, target);
        named := if Redeploys(target) then deployed.value.tag else if e.Some? then e.value.tag else None;
      } else if tags && commit.None? {
        var t;
        ghost var remote;
        t, ok, remote := TagToDeploy(tag);
        target, named := t.commit, Some(t.name);
        var e := EntryOf(history, target);
        revert := e.Some? && Ran(e.value) && !Redeploys(target);
      } else if tags && tag.None? {
        var e := EntryOf(history, target);
        if Redeploys(target) {
          named, revert := deployed.value.tag, false;
        } else if e.Some? && Ran(e.value) {
          named := e.value.tag;
        } else {
          ok := false;
        }
      }
    }

    // gitTagToDeploy: the tag asked for among the eligible ones of the remote,
    // or the highest.
    method TagToDeploy(tag: Option<string>) returns (t: Tag, ok: bool, ghost remote: map<string, Commit>)
      ensures ok ==> Eligible(repo.wanted, t.name) && t.name in remote && remote[t.name] == t.commit
      ensures ok && tag.Some? ==> t.name == tag.value
      ensures ok && tag.None? ==>
                forall name <- remote :: Eligible(repo.wanted, name) ==>
                    !Higher(repo.wanted.read, Some(name), Some(t.name))
    {
      t, ok := Tag("", 0), *;
      var found: map<string, Commit> := *;
      remote := found;
      if !ok {
        return;
      }
      var listed := EligibleTags(repo.wanted, found);
      HighestFirst(repo.wanted, found, listed);
      for i := 0 to |listed|
        invariant tag.None? ==> i == 0
      {
        if tag.None? || listed[i].name == tag.value {
          assert listed[i] in listed;
          return listed[i], true, found;
        }
      }
      ok := false;
    }

    // A deployment by hand that goes down.
    predicate GoesDownFrom(was: Option<Deployment>, now: Deployment)
      reads this
    {
      tags && was.Some? && now.commit != was.value.commit && Higher(repo.wanted.read, was.value.tag, now.tag)
    }

    // What a deployment that is no repair asks: a commit the history names must
    // have run, and is gone back to wherever it stands; any other of a branch must
    // follow what runs.
    predicate Goes(target: Commit)
      reads this
    {
      if EntryOf(history, target).Some? then FolderPut() && CanRevert(target) else tags || BranchAllows(target)
    }

    // deployHolding, for an app that has been adopted.
    method Deploy(commit: Option<Commit>, tag: Option<string>, trigger: Trigger) returns (r: Ended)
      requires Kept() && !adoptable && (trigger == Automatic ==> commit.Some? && (tags <==> tag.Some?))
      modifies this
      ensures Kept() && (old(Sound()) ==> Sound())
      ensures !adoptable && tags == old(tags) && auto == old(auto) && check == old(check)
      ensures r == Done(Deployed) || r == Done(RolledBack) ==> Sound()
      ensures r != Done(Deployed) ==> deployed == old(deployed) && paused == old(paused)
      ensures r == Done(Deployed) ==> deployed.Some? && !blocked
      ensures r.Done? ==> history != [] && Recorded(old(history), history[0].commit, history[0].tag, r.outcome)
      ensures r.Done? && commit.Some? ==> history[0].commit == commit.value
      ensures r == Refused && trigger != Automatic ==> history == old(history)
      ensures r == Done(Deployed) && commit.Some? ==> deployed.value.commit == commit.value
      ensures r == Done(Deployed) && commit.Some? && tag.Some? ==> deployed.value.tag == tag
      ensures r == Done(Deployed) && trigger != Automatic && GoesDownFrom(old(deployed), deployed.value) ==> paused
      ensures trigger == Automatic ==> paused == old(paused)
      ensures trigger == Automatic && r != Done(Deployed) ==> commit.value in attempted
      ensures trigger == Automatic && r == Done(Deployed) && !tags ==> deployed.value.tag == None
      ensures commit.Some? && (tags <==> tag.Some?) && r == Done(Deployed) && old(!Redeploys(commit.value)) ==>
                old(Goes(commit.value))
      ensures commit.Some? && (tags <==> tag.Some?) && well ==>
                old(cloned && !Redeploys(commit.value) && Goes(commit.value)) ==> r == Done(Deployed)
    {
      var ok, target, named, revert := Choose(commit, tag, trigger);
      if !ok {
        return Refused;
      }
      ok := Preconditions(target, named, revert);
      if !ok {
        if trigger == Automatic {
          Fail(target, named, {}, Failed);
        }
        return Refused;
      }
      var outcome := RunDeploy(target, named, revert && !Redeploys(target), trigger);
      r := Done(outcome);
    }

    // deployHolding: an app to adopt is adopted first, and what runs of it is then
    // what a failed deployment leaves or puts back.
    method Request(commit: Option<Commit>, tag: Option<string>, trigger: Trigger) returns (r: Ended)
      requires Kept() && Sound() && trigger != Automatic
      modifies this
      ensures Kept() && Sound()
      ensures old(adoptable) && !adoptable ==> deployed.Some? && history != []
      ensures old(adoptable) && !adoptable && r != Done(Deployed) ==> deployed.value.commit == old(folder)
      ensures adoptable ==> r == Refused && deployed.None? && folder == old(folder)
      ensures !old(adoptable) && r != Done(Deployed) ==> deployed == old(deployed)
      ensures r == Done(Deployed) ==>
          deployed.Some? && !blocked && (commit.Some? ==> deployed.value.commit == commit.value)
    {
      if adoptable {
        var adopted := Adopt();
        if !adopted {
          return Refused;
        }
      }
      r := Deploy(commit, tag, trigger);
    }

    // --- the automatic rebuild ---

    // gitMayDeployAutomatically.
    predicate May()
      reads this
    {
      && auto && !paused && !blocked && deployed.Some? && check.Some? && !check.value.failed
      && check.value.commit.Some? && check.value.commit != Some(deployed.value.commit)
      && check.value.commit.value !in attempted
      && if tags then Higher(repo.wanted.read, check.value.tag, deployed.value.tag) else deployed.value.tag.None?
    }

    // What never goes down while nobody deploys by hand.
    twostate predicate NeverDown()
      reads this
    {
      && tags == old(tags) && auto == old(auto) && paused == old(paused)
      && (deployed.Some? <==> old(deployed).Some?)
      && (tags && deployed.Some? ==> NotDown(repo.wanted.read, old(deployed).value.tag, deployed.value.tag))
      && (paused && deployed.Some? ==> deployed.value.commit == old(deployed).value.commit)
    }

    // On a sound app the automatic rebuild goes back exactly to a version of the
    // history that ran: nothing is asked of where it stands.
    lemma AutoGoes(target: Commit)
      requires Kept() && Sound() && May() && check.value.commit == Some(target)
      ensures Goes(target) <==>
                var e := EntryOf(history, target);
                if e.Some? then Ran(e.value) else tags || repo.contains(target, deployed.value.commit)
      ensures Goes(target) && !tags && !repo.contains(target, deployed.value.commit) <==>
                EntryOf(history, target).Some? && Ran(EntryOf(history, target).value)
                && !tags && !repo.contains(target, deployed.value.commit)
    {
      EntryOfFinds(history, target);
    }

    // deployGitAppAutomatically: what failed is not tried again. Where no step
    // fails, what it may deploy is deployed exactly when it goes.
    method DeployAutomatically()
      requires Kept() && (May() ==> !adoptable)
      modifies this
      ensures well && old(May()) ==>
                deployed.Some?
                    && (deployed.value.commit == old(check).value.commit.value <==> old(Goes(check.value.commit.value)))
      ensures adoptable == old(adoptable)
      ensures Kept() && (old(Sound()) ==> Sound()) && NeverDown()
      ensures old(!May()) ==> deployed == old(deployed) && attempted == old(attempted)
      ensures !May() || old(!May())
    {
      if May() {
        var r := Deploy(check.value.commit, check.value.tag, Automatic);
      }
    }

    // The running version under a higher tag of its commit.
    method Promote(commit: Commit, tag: Option<string>)
      requires Kept() && !adoptable && tags && Redeploys(commit) && Higher(repo.wanted.read, tag, deployed.value.tag)
      modifies `deployed, `history
      ensures Kept() && deployed == Some(old(deployed).value.(tag := tag))
          && history == Promoted(old(history), commit, tag)
      ensures old(Sound()) ==> Sound()
    {
      deployed := Some(deployed.value.(tag := tag));
      history := Promoted(history, commit, tag);
    }

    // checkGitApp: what the remote has is written down; a higher tag found on
    // the running commit becomes its tag. Nothing that runs changes.
    method CheckApp(clone: bool)
      requires Kept() && !adoptable
      modifies `check, `deployed, `history, `cloned, `folder
      ensures Kept() && (old(Sound()) ==> Sound()) && NeverDown()
      ensures deployed.Some? ==> deployed.value == old(deployed).value.(tag := deployed.value.tag)
      ensures check.Some? && (!check.value.failed ==> check.value.commit.Some? && (tags <==> check.value.tag.Some?))
    {
      check := Some(match check case None => Check(None, None, false) case Some(c) => c.(failed := false));
      var found, commit, tag := AskRemote();
      if !found {
        check := Some(check.value.(failed := true));
        return;
      }
      check := Some(Check(Some(commit), tag, false));
      if tags && Redeploys(commit) && Higher(repo.wanted.read, tag, deployed.value.tag) {
        Promote(commit, tag);
      }
      if !cloned && clone {
        cloned := *;
        if cloned {
          folder := commit;
        } else {
          check := Some(check.value.(failed := true));
        }
      }
    }

    // Where the branch is, or the highest eligible tag.
    method AskRemote() returns (found: bool, commit: Commit, tag: Option<string>)
      ensures found ==> (tags <==> tag.Some?)
    {
      found, commit, tag := *, *, None;
      if tags {
        var t;
        ghost var remote;
        t, found, remote := TagToDeploy(None);
        commit, tag := t.commit, Some(t.name);
      }
    }

    // adoptGitApp: what runs is named after the folder's commit.
    method Adopt() returns (ok: bool)
      requires Kept() && adoptable
      modifies this
      ensures (well ==> ok) && Kept() && adoptable == !ok && folder == old(folder) && tags == old(tags) && cloned
      ensures ok ==> Sound() && deployed.Some? && deployed.value.commit == folder && deployed.value.tag.None?
      ensures ok ==> |history| == 1 && history[0].outcome == Adopted && history[0].commit == folder
      ensures !ok ==> deployed.None? && history == []
    {
      var images;
      images, ok := Build();
      if ok {
        adoptable := false;
        tagged, running := Some(folder), Some(Running(folder, folder));
        deployed := Some(Deployment(folder, None, images));
        history := Remember(Entry(folder, None, Adopted, images), history);
      }
    }

    // UpdateGitApp, where it bears on deployments: turning the automatic rebuild
    // on lifts the pause, and a change of mode forgets the check of the other.
    method Update(rebuild: Option<bool>, follow: Option<bool>) returns (ok: bool)
      requires Kept() && !adoptable
      modifies `auto, `paused, `tags, `check
      ensures Kept() && (old(Sound()) ==> Sound())
      ensures paused == (old(paused) && !(ok && rebuild == Some(true)))
      ensures auto == if ok && rebuild.Some? then rebuild.value else old(auto)
      ensures tags == if ok && follow.Some? then follow.value else old(tags)
      ensures check == if tags == old(tags) then old(check) else None
    {
      ok := *;
      if ok {
        if rebuild.Some? {
          auto := rebuild.value;
          paused := paused && !auto;
        }
        if follow.Some? && follow.value != tags {
          tags, check := follow.value, None;
        }
      }
    }

    // The process stopped in a deployment, wherever it was; RecoverGitApps then
    // writes it down, once it lives to the end of that. The commit is not tried
    // again by itself, and the images of what the history says ran are all still
    // there. Those of the version that runs by the record are, but for what the
    // deployment had removed after it landed and before it was written down.
    method StopAndRecover(target: Commit, tag: Option<string>, late: Option<Ending>, tries: nat)
      returns (ghost gone: set<Image>)
      requires Kept() && !adoptable && (late.Some? ==> EndsWith(target, tag, late.value))
      modifies this
      ensures deployed == old(deployed) && blocked == old(blocked) && StillSet() && target in attempted
      ensures Recorded(old(history), target, tag, Interrupted)
      ensures gone <= match late case None => {} case Some(end) => Removable(end.entry, old(history), end.runs)
      ensures forall e <- history :: Ran(e) ==> e.images <= docker
      ensures Kept() <==> RunningImages(deployed) !! gone
      ensures late.None? || late.value.runs == old(deployed) ==> Kept()
    {
      if late.Some? {
        RemovableSpares(late.value.entry, history, late.value.runs);
      }
      gone := Stopped(late);
      Recovered(target, tag, tries, gone);
      AllThere(RunningImages(deployed), docker, gone);
    }

    // What a stop leaves: but for these images, those of the version that runs by
    // the record, and those of what will stay in the history.
    ghost predicate Stocked(gone: set<Image>)
      reads this
    {
      && RunningImages(deployed) - docker == RunningImages(deployed) * gone
      && forall e <- Staying(history) :: Ran(e) ==> e.images <= docker
    }

    method Stopped(late: Option<Ending>) returns (ghost gone: set<Image>)
      requires Kept()
      modifies `folder, `tagged, `running, `docker
      ensures gone <= match late case None => {} case Some(end) => Removable(end.entry, history, end.runs)
      ensures Stocked(gone)
    {
      var images, built := Build();
      folder, tagged, running := *, *, *;
      gone := {};
      if late.Some? {
        ghost var made := docker;
        StayingSpared(late.value.entry, history, late.value.runs);
        RemoveImages(Removable(late.value.entry, history, late.value.runs));
        gone := made - docker;
      }
    }

    method Recovered(target: Commit, tag: Option<string>, tries: nat, ghost gone: set<Image>)
      requires Stocked(gone) && |history| <= HistoryLength && |attempted| <= AttemptedLength
      modifies `docker, `history, `attempted
      ensures target in attempted && |attempted| <= AttemptedLength && |history| <= HistoryLength
      ensures Recorded(old(history), target, tag, Interrupted)
      ensures forall e <- history :: Ran(e) ==> e.images <= docker
      ensures RunningImages(deployed) - docker == RunningImages(deployed) * gone
    {
      for i := 0 to tries
        invariant Stocked(gone)
        modifies `docker
      {
        var cut: set<Image> := *;
        Removing(Entry(target, tag, Interrupted, cut), gone);
      }
      var named: set<Image> := *;
      var e := Entry(target, tag, Interrupted, named);
      Removing(e, gone);
      attempted := LastAttempts(attempted, target);
      StayingSpared(e, history, deployed);
      Save(e);
    }

    // How a deployment that was not written down ended: what ran before still
    // does, or the new version.
    predicate EndsWith(target: Commit, tag: Option<string>, end: Ending)
      reads this
    {
      && end.entry.commit == target && end.entry.tag == tag
      && (end.runs == deployed
          || (end.entry.outcome == Deployed && end.runs == Some(Deployment(target, tag, end.entry.images))))
    }

    // A recovery removes what its entry puts out of the history.
    method Removing(e: Entry, ghost gone: set<Image>)
      requires Stocked(gone) && |history| <= HistoryLength
      modifies `docker
      ensures Stocked(gone)
    {
      RemovableSpares(e, history, deployed);
      StayingSpared(e, history, deployed);
      RemoveImages(Removable(e, history, deployed));
    }
  }

  // What happens to an app: a request, a check by hand or in time, a change.
  datatype Event =
    | Requested(commit: Option<Commit>, tag: Option<string>, trigger: Trigger)
    | Checked(clone: bool)
    | Changed(rebuild: Option<bool>, follow: Option<bool>)

  method Happen(a: App, e: Event)
    requires a.Kept() && a.Sound() && (e.Requested? ==> e.trigger != Automatic)
    modifies a
    ensures a.Kept() && a.Sound()
  {
    match e {
      case Requested(commit, tag, trigger) => var r := a.Request(commit, tag, trigger);
      case Checked(clone) =>
        var adopted := AdoptFirst(a);
        if adopted {
          a.CheckApp(clone);
          a.DeployAutomatically();
        }
      case Changed(rebuild, follow) =>
        var adopted := AdoptFirst(a);
        if adopted {
          var ok := a.Update(rebuild, follow);
        }
    }
  }

  // A check and a change adopt an app to adopt first, too.
  method AdoptFirst(a: App) returns (ok: bool)
    requires a.Kept() && a.Sound()
    modifies a
    ensures a.Kept() && a.Sound() && a.adoptable == !ok
  {
    ok := true;
    if a.adoptable {
      ok := a.Adopt();
    }
  }

  // Over any run, whatever fails: an app that is not blocked has its folder on
  // the version it deployed, and that is what was last started; and no image of
  // a version that runs, or that could be reverted to, was removed.
  method Live(a: App, events: seq<Event>)
    requires a.Kept() && a.Sound() && forall e <- events :: e.Requested? ==> e.trigger != Automatic
    modifies a
    ensures a.Kept() && a.Sound()
  {
    for i := 0 to |events|
      invariant a.Kept() && a.Sound()
    {
      assert events[i] in events;
      Happen(a, events[i]);
    }
  }

  // Over any run of checks, and of what they deploy: the tag never goes down,
  // and a paused app keeps its version.
  method Unattended(a: App, clones: seq<bool>)
    requires a.Kept() && !a.adoptable
    modifies a
    ensures a.Kept() && a.NeverDown() && !a.adoptable
  {
    for i := 0 to |clones|
      invariant a.Kept() && a.NeverDown() && !a.adoptable
    {
      ghost var was := a.deployed;
      OneCheck(a, clones[i]);
      if a.tags && was.Some? {
        NotDownTransitive(a.repo.wanted.read, old(a.deployed).value.tag, was.value.tag, a.deployed.value.tag);
      }
    }
  }

  method OneCheck(a: App, clone: bool)
    requires a.Kept() && !a.adoptable
    modifies a
    ensures a.Kept() && a.NeverDown() && !a.adoptable
  {
    a.CheckApp(clone);
    label checked:
    a.DeployAutomatically();
    if a.tags && a.deployed.Some? {
      NotDownTransitive(a.repo.wanted.read, old(a.deployed).value.tag, old@checked(a.deployed).value.tag,
          a.deployed.value.tag);
    }
  }

  // On a branch the automatic rebuild can go back: to a version of the history
  // that ran, where the branch was moved back to it. Here 2 runs, 1 does not
  // follow it, and the rebuild deploys 1.
  method GoesBack(repo: Repo) returns (a: App, r: Ended)
    requires repo.Reflexive() && !repo.contains(1, 2)
    ensures r == Done(Deployed) && a.deployed.Some? && a.deployed.value.commit == 1
  {
    a := TwoVersions(repo);
    r := a.Deploy(a.check.value.commit, None, Automatic);
  }

  method TwoVersions(repo: Repo) returns (a: App)
    requires repo.Reflexive()
    ensures fresh(a) && a.repo == repo && a.well && !a.adoptable && !a.tags && a.Kept() && a.Sound() && a.May()
    ensures a.deployed.value.commit == 2 && a.check.value.commit == Some(1) && a.Goes(1)
  {
    a := new App(repo, true, false, 2);
    a.cloned, a.auto := true, true;
    a.deployed := Some(Deployment(2, None, {}));
    a.history := [Entry(2, None, Deployed, {}), Entry(1, None, Deployed, {})];
    a.check := Some(Check(Some(1), None, false));
    a.tagged, a.running := Some(2), Some(Running(2, 2));
  }
}
