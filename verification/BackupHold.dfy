// An app held still while it is copied: its containers stopped, and started back
// whatever happens, by the process that stopped them or by the next one. `live`
// falls when this process is killed, and no step has any effect from then on.
module BackupHold {
  import opened Strings

  type Id = string

  datatype Container = Container(id: Id, state: string)

  type Notes = map<string, seq<Id>>

  // The states a container is taken for running in.
  predicate Up(c: Container) {
    c.id != "" && (c.state == "running" || c.state == "restarting" || c.state == "paused")
  }

  function UpIds(cs: seq<Container>): set<Id> {
    set c | c in cs && Up(c) :: c.id
  }

  function Ids(s: seq<Id>): set<Id> {
    set i | i in s
  }

  // runningContainerIDs: those that are up, in a stable order.
  method RunningIds(cs: seq<Container>) returns (ids: seq<Id>)
    ensures Sorted(ids) && Ids(ids) == UpIds(cs)
  {
    ids := [];
    for k := 0 to |cs|
      invariant Sorted(ids) && Ids(ids) == UpIds(cs[..k])
    {
      assert cs[..k + 1] == cs[..k] + [cs[k]];
      if Up(cs[k]) {
        ghost var before := ids;
        ids := InsertSorted(ids, cs[k].id);
        assert Ids(ids) == Ids(before) + {cs[k].id};
      }
    }
    assert cs[..|cs|] == cs;
  }

  // What a note names of an app.
  function Noted(notes: Notes, app: string): set<Id> {
    if app in notes then Ids(notes[app]) else {}
  }

  // ... and is down.
  function Owed(running: set<Id>, notes: Notes, app: string): set<Id> {
    Noted(notes, app) - running
  }

  // What the notes name of some apps.
  function Named(notes: Notes, apps: set<string>): set<Id> {
    set app, id | app in apps && app in notes && id in notes[app] :: id
  }

  function AllNamed(notes: Notes): set<Id> {
    Named(notes, notes.Keys)
  }

  // What should run, does not, and no note names: no start brings it back.
  function Lost(was: set<Id>, running: set<Id>, notes: Notes): set<Id> {
    was - running - AllNamed(notes)
  }

  // What is down and only this app's note names.
  function Alone(running: set<Id>, notes: Notes, app: string): set<Id> {
    Owed(running, notes, app) - AllNamed(notes - {app})
  }

  // Nothing is on, or will be, that was off.
  predicate Sane(was: set<Id>, running: set<Id>, notes: Notes) {
    running <= was && AllNamed(notes) <= was
  }

  // What a release leaves of the notes.
  function Forgotten(notes: Notes, app: string, forgot: bool): Notes {
    if forgot then notes - {app} else notes
  }

  // What was running and is down is named by the app's note.
  predicate Covered(was: set<Id>, running: set<Id>, notes: Notes, app: string) {
    was - running <= Noted(notes, app)
  }

  // A release that could not start a container leaves a note for the next start
  // exactly when the note could not be erased: it is erased either way.
  lemma ReleaseCovers(was: set<Id>, running: set<Id>, stopped: set<Id>, started: set<Id>, notes: Notes, app: string,
                      forgot: bool)
    requires was == running + stopped && running !! stopped && started <= stopped && stopped <= Noted(notes, app)
    ensures Covered(was, running + started, Forgotten(notes, app, forgot), app) <==> started == stopped || !forgot
  {
    var left := was - (running + started);
    assert left == stopped - started;
    if forgot {
      assert Noted(Forgotten(notes, app, forgot), app) == {};
      if left == {} {
        assert forall id <- stopped :: id in started || id in left;
      }
    }
  }

  // One container that does not start again, and nothing left that names it.
  lemma ReleaseForgets()
    ensures !Covered({"db"}, {}, Forgotten(map["app" := ["db"]], "app", true), "app")
    ensures Lost({"db"}, {}, Forgotten(map["app" := ["db"]], "app", true)) == {"db"}
  {
    assert "db" in {"db"} - {};
  }

  lemma NamedSplit(notes: Notes, app: string)
    ensures AllNamed(notes) == Noted(notes, app) + AllNamed(notes - {app})
  {
    var rest := notes - {app};
    forall id
      ensures id in AllNamed(notes) <==> id in Noted(notes, app) + AllNamed(rest)
    {
      if id in AllNamed(notes) {
        var a :| a in notes && id in notes[a];
        assert a != app ==> a in rest;
      }
      if id in AllNamed(rest) {
        var a :| a in rest && id in rest[a];
        assert a in notes && id in notes[a];
      }
    }
  }

  // A hold that writes its note loses exactly what the note before it named
  // alone: when there was none, or all it named runs, nothing.
  lemma HoldLoses(was: set<Id>, running: set<Id>, notes: Notes, now: Notes, app: string, ids: set<Id>, down: set<Id>)
    requires Sane(was, running, notes) && down <= ids <= running
    requires now - {app} == notes - {app} && Noted(now, app) == ids
    ensures Sane(was, running - down, now)
    ensures Lost(was, running - down, now) == Lost(was, running, notes) + Alone(running, notes, app)
  {
    NamedSplit(notes, app);
    NamedSplit(now, app);
  }

  // A backup that ran to its end loses that, and what did not start.
  lemma BackupLoses(was: set<Id>, running: set<Id>, now: set<Id>, notes: Notes, app: string)
    requires Sane(was, running, notes) && now <= running
    ensures Sane(was, now, notes - {app})
    ensures Lost(was, now, notes - {app}) ==
            Lost(was, running, notes) + Alone(running, notes, app) + (running - now - AllNamed(notes - {app}))
  {
    NamedSplit(notes, app);
  }

  // A hold covers what its app's note covered exactly when no container is up,
  // so that it writes nothing, or nothing that note names is down.
  lemma HoldCovers(running: set<Id>, notes: Notes, now: Notes, app: string, ids: set<Id>, stopped: set<Id>)
    requires stopped <= ids <= running
    requires Noted(now, app) == if ids == {} then Noted(notes, app) else ids
    ensures Covered(running + Noted(notes, app), running - stopped, now, app) <==>
            ids == {} || Owed(running, notes, app) == {}
  {
    var due := running + Noted(notes, app);
    assert due - (running - stopped) == stopped + Owed(running, notes, app);
    if ids != {} && Owed(running, notes, app) != {} {
      var id :| id in Owed(running, notes, app);
      assert id in due - (running - stopped) && id !in ids;
    }
  }

  // Two backups. The first is killed, and the start after it cannot start db, so
  // its note stays. Held again, web is all that is up: the note names db no more,
  // and after the next start nothing does. With web down too the hold writes
  // nothing, and the release erases the note all the same.
  lemma HeldAgainForgets()
    ensures Lost({"db", "web"}, {"web"}, map["app" := ["db", "web"]]) == {}
    ensures Alone({"web"}, map["app" := ["db", "web"]], "app") == {"db"}
    ensures Lost({"db", "web"}, {}, map["app" := ["web"]]) == {"db"}
    ensures Lost({"db", "web"}, {"web"}, map[]) == {"db"}
    ensures Lost({"db", "web"}, {}, Forgotten(map["app" := ["db", "web"]], "app", true)) == {"db", "web"}
  {
    var first, second: Notes := map["app" := ["db", "web"]], map["app" := ["web"]];
    assert first - {"app"} == map[];
    NamedSplit(first, "app");
    NamedSplit(second, "app");
    assert Noted(first, "app") == {"db", "web"} by { assert first["app"][0] == "db" && first["app"][1] == "web"; }
    assert Noted(second, "app") == {"web"} by { assert second["app"][0] == "web"; }
    assert AllNamed(map[]) == {};
  }

  // Starting what is named loses nothing and finds nothing.
  lemma StartedLoses(was: set<Id>, running: set<Id>, now: set<Id>, notes: Notes)
    requires Sane(was, running, notes) && running <= now <= running + AllNamed(notes)
    ensures Sane(was, now, notes) && Lost(was, now, notes) == Lost(was, running, notes)
  {
  }

  // An app's note may go once all it names runs.
  lemma ForgetLoses(was: set<Id>, running: set<Id>, notes: Notes, app: string)
    requires Sane(was, running, notes) && Owed(running, notes, app) == {}
    ensures Sane(was, running, notes - {app}) && Lost(was, running, notes - {app}) == Lost(was, running, notes)
  {
    NamedSplit(notes, app);
    forall id <- Noted(notes, app)
      ensures id in running
    {
      assert id !in Owed(running, notes, app);
    }
    assert Lost(was, running, notes - {app}) == Lost(was, running, notes);
  }

  // What a hold writes: the containers it will stop, when there are any.
  predicate Wrote(notes: Notes, now: Notes, app: string, ids: set<Id>) {
    if ids == {} then now == notes else Noted(now, app) == ids
  }

  // Wherever a backup is killed: it has written its note, or done nothing.
  lemma KilledLoses(was: set<Id>, running: set<Id>, notes: Notes, now: Notes, app: string, ids: set<Id>, up: set<Id>)
    requires Sane(was, running, notes) && running - ids <= up <= running && ids <= running
    requires now - {app} == notes - {app} && (now == notes || Noted(now, app) == ids)
    ensures Sane(was, up, now)
    ensures Wrote(notes, now, app, ids) || up == running ==>
              Lost(was, up, now) == Lost(was, running, notes) + if now == notes then {} else Alone(running, notes, app)
  {
    if Noted(now, app) == ids {
      HoldLoses(was, running, notes, now, app, ids, running - up);
      assert running - (running - up) == up;
    }
  }

  // One app's containers started: the others' are left.
  lemma FewerNamed(before: set<Id>, after: set<Id>, named: Notes, notes: Notes, left: set<string>, app: string)
    requires AllNamed(named) - before <= Named(named, left) && before <= after
    requires app in named && Noted(named, app) <= after
    requires notes == named || notes == named - {app}
    ensures AllNamed(notes) - after <= Named(notes, left - {app})
  {
    forall id <- AllNamed(notes) - after
      ensures id in Named(notes, left - {app})
    {
      var b :| b in notes && id in notes[b];
      assert b in named && id in named[b];
      assert id in AllNamed(named) - before;
      var a :| a in left && a in named && id in named[a];
      assert a == app ==> id in Noted(named, app);
      assert a in left - {app} && a in notes && id in notes[a];
    }
  }

  // --- attempts to start ---

  datatype Attempt = Attempt(id: Id, worked: bool)

  function Worked(log: seq<Attempt>): set<Id> {
    set a | a in log && a.worked :: a.id
  }

  function Failed(log: seq<Attempt>): set<Id> {
    set a | a in log && !a.worked :: a.id
  }

  // The attempts go through the ids from the last one back.
  predicate Attempts(ids: seq<Id>, log: seq<Attempt>) {
    |log| <= |ids| && forall k :: 0 <= k < |log| ==> log[k].id == ids[|ids| - 1 - k]
  }

  // All were attempted, so each one runs or did not start.
  lemma AllAttempted(ids: seq<Id>, log: seq<Attempt>)
    requires Attempts(ids, log)
    ensures Worked(log) <= Ids(ids)
    ensures |log| == |ids| ==> Ids(ids) == Worked(log) + Failed(log)
  {
    forall a <- log
      ensures a.id in ids
    {
      var k :| 0 <= k < |log| && log[k] == a;
      assert a.id == ids[|ids| - 1 - k];
    }
    if |log| == |ids| {
      forall id <- ids
        ensures id in Worked(log) + Failed(log)
      {
        var i :| 0 <= i < |ids| && ids[i] == id;
        var k := |ids| - 1 - i;
        assert log[k].id == id && log[k] in log;
      }
    }
  }

  lemma OneMore(log: seq<Attempt>, a: Attempt)
    ensures Worked(log + [a]) == if a.worked then Worked(log) + {a.id} else Worked(log)
    ensures Failed(log + [a]) == if a.worked then Failed(log) else Failed(log) + {a.id}
  {
    assert forall x :: x in log + [a] <==> x in log || x == a;
  }

  // All of them, unless the process did not live.
  predicate Tried(ids: seq<Id>, log: seq<Attempt>, live: bool) {
    Attempts(ids, log) && (live ==> |log| == |ids|)
  }

  // The attempts of a recovery, app by app.
  type Tries = map<string, seq<Attempt>>

  function AllWorked(tried: Tries): set<Id> {
    set app, id | app in tried && id in Worked(tried[app]) :: id
  }

  predicate NoneFailed(tried: Tries) {
    forall app <- tried :: Failed(tried[app]) == {}
  }

  // A recovery tried every app that was noted, and answers well exactly when it
  // lived and none of their containers failed to start.
  predicate Told(due: Notes, tried: Tries, live: bool, ok: bool) {
    && tried.Keys == due.Keys && (forall app <- tried :: Tried(due[app], tried[app], live))
    && (ok <==> live && NoneFailed(tried))
  }

  // The notes of the apps not started whole.
  function StillNoted(notes: Notes, tried: Tries): Notes {
    map app | app in notes && app in tried && Failed(tried[app]) != {} :: notes[app]
  }

  // A recovery under way: these apps are left, their notes as they were.
  ghost predicate Underway(due: Notes, notes: Notes, left: set<string>, tried: Tries, live: bool) {
    && left <= due.Keys && tried.Keys == due.Keys - left
    && (forall app <- tried :: Tried(due[app], tried[app], live))
    && notes.Keys <= due.Keys && (forall app <- notes :: notes[app] == due[app])
    && left <= notes.Keys
  }

  predicate StaysExactly(notes: Notes, tried: Tries) {
    forall app <- tried :: app in notes <==> Failed(tried[app]) != {}
  }

  lemma TriedMore(tried: Tries, app: string, log: seq<Attempt>, now: Tries)
    requires app !in tried && now == tried[app := log]
    ensures AllWorked(now) == AllWorked(tried) + Worked(log)
    ensures NoneFailed(now) <==> NoneFailed(tried) && Failed(log) == {}
  {
    assert forall a <- tried :: a in now && now[a] == tried[a];
    assert app in now && now[app] == log;
  }

  // One more app recovered.
  lemma UnderwayMore(due: Notes, named: Notes, notes: Notes, left: set<string>, fewer: set<string>, tried: Tries,
                     now: Tries, app: string, log: seq<Attempt>, was: bool, live: bool)
    requires Underway(due, named, left, tried, was) && (live ==> was)
    requires app in left && fewer == left - {app} && now == tried[app := log] && Tried(due[app], log, live)
    requires notes == named || (Failed(log) == {} && notes == named - {app})
    ensures Underway(due, notes, fewer, now, live)
    ensures StaysExactly(named, tried) && (Failed(log) == {} ==> notes == named - {app}) ==> StaysExactly(notes, now)
  {
  }

  class Host {
    var live: bool
    var writable: bool        // the note's file can be written
    var running: set<Id>
    var notes: Notes
    var calm: bool            // from now on no step fails and this process is not killed

    // One step: the process may be killed before it, or it may fail.
    method Try() returns (ok: bool)
      modifies `live
      ensures live ==> old(live)
      ensures (ok ==> live) && (calm && old(live) ==> ok)
    {
      var killed: bool := *;
      if killed && !calm {
        live := false;
      }
      var fails: bool := *;
      ok := live && (calm || !fails);
    }

    // A stop that fails leaves the container up.
    method Stop(id: Id) returns (ok: bool)
      modifies `live, `running
      ensures (live ==> old(live)) && (ok ==> live) && (calm && old(live) ==> ok)
      ensures running == if ok then old(running) - {id} else old(running)
    {
      ok := Try();
      if ok {
        running := running - {id};
      }
    }

    method Start(id: Id) returns (ok: bool)
      modifies `live, `running
      ensures (live ==> old(live)) && (ok ==> live) && (calm && old(live) ==> ok)
      ensures running == if ok then old(running) + {id} else old(running)
    {
      ok := Try();
      if ok {
        running := running + {id};
      }
    }

    // writeHeld: a temporary file, renamed.
    method Write(now: Notes) returns (ok: bool)
      modifies `live, `notes
      ensures (live ==> old(live)) && (ok ==> live) && (calm && old(live) ==> ok)
      ensures notes == if ok then now else old(notes)
      ensures live && writable ==> ok
    {
      ok := Try();
      ok := live && (ok || writable);
      if ok {
        notes := now;
      }
    }

    // rememberHeld.
    method Remember(app: string, ids: seq<Id>) returns (ok: bool)
      modifies `live, `notes
      ensures (live ==> old(live)) && (calm && old(live) ==> live)
      ensures notes == old(notes) || (ids != [] && notes == old(notes)[app := ids])
      ensures live && writable && app != "" && ids != [] ==> app in notes && notes[app] == ids
    {
      if app == "" || ids == [] {
        return true;
      }
      ok := Write(notes[app := ids]);
    }

    // forgetHeld.
    method Forget(app: string) returns (forgot: bool)
      modifies `live, `notes
      ensures (live ==> old(live)) && (calm && old(live) ==> live && forgot)
      ensures notes == Forgotten(old(notes), app, forgot)
      ensures (live && writable ==> forgot) && (forgot && app in old(notes) ==> live)
    {
      if app !in notes {
        assert notes - {app} == notes;
        return true;
      }
      forgot := Write(notes - {app});
    }

    // holdApp: the app's running containers stopped, once they are written down;
    // what was stopped before a failure is returned all the same. A note the app
    // already had is written over, when there is anything to stop.
    method Hold(app: string, cs: seq<Container>) returns (stopped: seq<Id>, ok: bool)
      requires live && app != "" && UpIds(cs) <= running
      modifies `live, `running, `notes
      ensures running == old(running) - Ids(stopped) && Ids(stopped) <= UpIds(cs)
      ensures notes - {app} == old(notes) - {app}
      ensures writable && live ==> Wrote(old(notes), notes, app, UpIds(cs))
      ensures writable && !live ==>
                Wrote(old(notes), notes, app, UpIds(cs)) || (notes == old(notes) && running == old(running))
      ensures notes == old(notes) || Noted(notes, app) == UpIds(cs)
      ensures (ok ==> live && Ids(stopped) == UpIds(cs)) && (calm ==> ok)
      ensures writable && live ==>
                (Covered(old(running) + Noted(old(notes), app), running, notes, app) <==>
                 UpIds(cs) == {} || Owed(old(running), old(notes), app) == {})
    {
      stopped, ok := HoldUp(app, cs);
      if writable && live {
        HoldCovers(old(running), old(notes), notes, app, UpIds(cs), Ids(stopped));
      }
    }

    method HoldUp(app: string, cs: seq<Container>) returns (stopped: seq<Id>, ok: bool)
      requires live && app != "" && UpIds(cs) <= running
      modifies `live, `running, `notes
      ensures running == old(running) - Ids(stopped) && Ids(stopped) <= UpIds(cs)
      ensures notes - {app} == old(notes) - {app}
      ensures writable && live ==> Wrote(old(notes), notes, app, UpIds(cs))
      ensures writable && !live ==>
                Wrote(old(notes), notes, app, UpIds(cs)) || (notes == old(notes) && running == old(running))
      ensures notes == old(notes) || Noted(notes, app) == UpIds(cs)
      ensures (ok ==> live && Ids(stopped) == UpIds(cs)) && (calm ==> ok)
    {
      stopped, ok := [], true;
      var ids := RunningIds(cs);
      assert ids == [] <==> UpIds(cs) == {} by {
        assert ids != [] ==> ids[0] in Ids(ids);
      }
      var noted := Remember(app, ids);
      if !live {
        return stopped, false;
      }
      ghost var written := notes;
      for i := 0 to |ids|
        invariant stopped == ids[..i] && live && notes == written
        invariant running == old(running) - Ids(stopped)
      {
        ok := Stop(ids[i]);
        if !ok {
          return;
        }
        assert ids[..i + 1] == ids[..i] + [ids[i]];
        stopped := stopped + [ids[i]];
      }
      assert ids[..|ids|] == ids;
    }

    // release: every container stopped is tried, the last one first, whatever
    // came of those before; and the note is erased.
    method Release(app: string, stopped: seq<Id>) returns (ok: bool, ghost log: seq<Attempt>, ghost forgot: bool)
      requires app != ""
      modifies `live, `running, `notes
      ensures (live ==> old(live)) && (calm && old(live) ==> ok)
      ensures Attempts(stopped, log) && (live ==> |log| == |stopped|)
      ensures running == old(running) + Worked(log)
      ensures notes == Forgotten(old(notes), app, forgot)
      ensures live && writable ==> forgot
      ensures ok <==> live && Failed(log) == {} && forgot
      ensures forgot && app in old(notes) ==> live
    {
      ok, log, forgot := true, [], false;
      for i := |stopped| downto 0
        invariant (live ==> old(live)) && notes == old(notes) && (calm && old(live) ==> live && ok)
        invariant Attempts(stopped, log) && (live ==> |log| == |stopped| - i)
        invariant running == old(running) + Worked(log)
        invariant live ==> (ok <==> Failed(log) == {})
      {
        var up := Start(stopped[i]);
        ok := ok && up;
        if live {
          OneMore(log, Attempt(stopped[i], up));
          log := log + [Attempt(stopped[i], up)];
        }
      }
      var done := Forget(app);
      forgot := done;
      ok := ok && done && live;
    }

    // A backup of an app: held, copied, released, whichever failed. back is the
    // release's own answer. Killed in it, or to its end: exactly what it loses.
    method Backup(app: string, cs: seq<Container>, ghost was: set<Id>)
      returns (ok: bool, back: bool, ghost log: seq<Attempt>)
      requires live && app != "" && UpIds(cs) <= running && Sane(was, running, notes)
      modifies `live, `running, `notes
      ensures running <= old(running) && Sane(was, running, notes)
      ensures (ok ==> back) && (calm ==> ok)
      ensures back ==> live && running == old(running)
      ensures live ==> old(running) - running <= Failed(log)
      ensures live && writable ==> (back <==> Failed(log) == {}) && notes == old(notes) - {app}
      ensures live && writable ==>
                Lost(was, running, notes) ==
                Lost(was, old(running), old(notes)) + Alone(old(running), old(notes), app)
                + (old(running) - running - AllNamed(notes))
      ensures !live && writable ==>
                Lost(was, running, notes) ==
                Lost(was, old(running), old(notes))
                + if notes == old(notes) then {} else Alone(old(running), old(notes), app)
    {
      ghost var up, noted := running, notes;
      var stopped, held := Hold(app, cs);
      KilledLoses(was, up, noted, notes, app, UpIds(cs), running);
      var copied := Try();
      ok, back, log := false, false, [];
      if live {
        ghost var down, written, forgot := running, notes, false;
        back, log, forgot := Release(app, stopped);
        ok := held && copied && back;
        AllAttempted(stopped, log);
        KilledLoses(was, up, noted, written, app, UpIds(cs), running);
        BackupLoses(was, up, running, noted, app);
      }
    }

    // One app of the notes: each container it names is tried, the last one first,
    // whatever came of those before, and the note goes when each one started.
    method RecoverApp(app: string, ghost was: set<Id>) returns (ok: bool, ghost log: seq<Attempt>)
      requires Sane(was, running, notes) && app in notes
      modifies `live, `running, `notes
      ensures (live ==> old(live)) && (calm && old(live) ==> ok)
      ensures Tried(old(notes)[app], log, live) && running == old(running) + Worked(log)
      ensures ok <==> live && Failed(log) == {}
      ensures notes == old(notes) || (Failed(log) == {} && notes == old(notes) - {app})
      ensures ok && writable ==> notes == old(notes) - {app}
      ensures ok ==> Noted(old(notes), app) <= running
      ensures Sane(was, running, notes) && Lost(was, running, notes) == Lost(was, old(running), old(notes))
    {
      ok, log := true, [];
      var ids := notes[app];
      NamedSplit(notes, app);
      for i := |ids| downto 0
        invariant (live ==> old(live)) && notes == old(notes) && (calm && old(live) ==> live && ok)
        invariant Attempts(ids, log) && (live ==> |log| == |ids| - i)
        invariant running == old(running) + Worked(log)
        invariant live ==> (ok <==> Failed(log) == {})
      {
        var up := Start(ids[i]);
        ok := ok && up;
        if live {
          OneMore(log, Attempt(ids[i], up));
          log := log + [Attempt(ids[i], up)];
        }
      }
      AllAttempted(ids, log);
      StartedLoses(was, old(running), running, notes);
      if ok && live {
        ForgetLoses(was, running, notes, app);
        var forgot := Forget(app);
      }
      ok := ok && live;
    }

    // A recovery of these notes under way, with some apps left.
    ghost predicate Halfway(was: set<Id>, lost: set<Id>, began: set<Id>, due: Notes, left: set<string>, tried: Tries,
                            ok: bool)
      reads this
    {
      && Sane(was, running, notes) && Lost(was, running, notes) == lost
      && Underway(due, notes, left, tried, live) && running == began + AllWorked(tried)
      && (ok <==> live && NoneFailed(tried)) && (ok ==> AllNamed(notes) - running <= Named(notes, left))
      && (live && writable ==> StaysExactly(notes, tried))
    }

    method RecoverNext(app: string, ok: bool, ghost was: set<Id>, ghost lost: set<Id>, ghost began: set<Id>,
                       ghost due: Notes, ghost left: set<string>, ghost fewer: set<string>, ghost tried: Tries)
      returns (still: bool, ghost now: Tries)
      requires Halfway(was, lost, began, due, left, tried, ok) && app in left && fewer == left - {app}
      modifies `live, `running, `notes
      ensures Halfway(was, lost, began, due, fewer, now, still)
      ensures (live ==> old(live)) && (calm && old(live) && ok ==> still)
    {
      var back;
      ghost var log;
      back, log := RecoverApp(app, was);
      still := ok && back;
      now := tried[app := log];
      TriedMore(tried, app, log, now);
      UnderwayMore(due, old(notes), notes, left, fewer, tried, now, app, log, old(live), live);
      if still {
        FewerNamed(old(running), running, old(notes), notes, left, app);
      }
    }

    // RecoverHeldApps: every app of the notes is recovered, whatever came of the
    // others; exactly the notes of those that did not start whole stay.
    method Recover(ghost was: set<Id>) returns (ok: bool, ghost tried: Tries)
      requires live && Sane(was, running, notes)
      modifies `live, `running, `notes
      ensures Told(old(notes), tried, live, ok) && (calm ==> ok)
      ensures running == old(running) + AllWorked(tried)
      ensures live && writable ==> notes == StillNoted(old(notes), tried)
      ensures Sane(was, running, notes) && Lost(was, running, notes) == Lost(was, old(running), old(notes))
      ensures ok ==> was - running == Lost(was, running, notes)
    {
      ok, tried := true, map[];
      var left := notes.Keys;
      ghost var lost := Lost(was, running, notes);
      while left != {}
        invariant Halfway(was, lost, old(running), old(notes), left, tried, ok) && (calm ==> live && ok)
        decreases left
      {
        var app :| app in left;
        ok, tried := RecoverNext(app, ok, was, lost, old(running), old(notes), left, left - {app}, tried);
        left := left - {app};
      }
      Recovered(was, running, notes, ok);
    }

    lemma Recovered(was: set<Id>, running: set<Id>, notes: Notes, ok: bool)
      requires Sane(was, running, notes) && (ok ==> AllNamed(notes) - running <= Named(notes, {}))
      ensures ok ==> was - running == Lost(was, running, notes)
    {
      assert Named(notes, {}) == {};
      if ok {
        assert forall id <- AllNamed(notes) :: id in running || id in AllNamed(notes) - running;
        assert was - running == Lost(was, running, notes);
      }
    }

    // A backup, then any number of starts, each of which may be killed in its
    // recovery or fail to start a container. No container that was off is ever
    // on. What a release that ran to its end could not start is lost, and nothing
    // else is; and a release or a recovery that had every start work, as one does
    // in which no step fails, leaves running exactly what was, but for that.
    method Life(app: string, cs: seq<Container>, starts: nat)
      returns (back: bool, ok: bool, ghost log: seq<Attempt>, ghost missed: set<Id>, ghost due: Notes,
          ghost tried: Tries)
      requires live && writable && app != "" && notes == map[] && UpIds(cs) <= running
      modifies this
      ensures running <= old(running)
      ensures Lost(old(running), running, notes) == missed <= Failed(log)
      ensures back ==> missed == {} && running == old(running)
      ensures ok ==> old(running) - running == missed
      ensures if starts == 0 then ok == back else Told(due, tried, live, ok)
      ensures calm ==> ok
    {
      ghost var was := running;
      assert AllNamed(notes) == {} && Noted(notes, app) == {};
      ok, back, log := Backup(app, cs, was);
      assert AllNamed(map[]) == {} && (notes == map[] || !live);
      missed := if live then was - running else {};
      var one;
      one, due, tried := Again(starts, was);
      ok := if starts == 0 then back else one;
    }

    // Starts one after another, each of a process that may or may not be let run;
    // the answer is that of the last one.
    method Again(starts: nat, ghost was: set<Id>) returns (ok: bool, ghost due: Notes, ghost tried: Tries)
      requires Sane(was, running, notes)
      modifies this
      ensures writable == old(writable)
          && (starts == 0 ==> live == old(live) && calm == old(calm) && running == old(running))
      ensures Sane(was, running, notes) && old(running) <= running
      ensures Lost(was, running, notes) == Lost(was, old(running), old(notes))
      ensures starts > 0 ==> Told(due, tried, live, ok) && (calm ==> ok)
      ensures starts > 0 && ok ==> was - running == Lost(was, running, notes)
    {
      ok, due, tried := false, notes, map[];
      for i := 0 to starts
        invariant writable == old(writable) && Sane(was, running, notes) && old(running) <= running
        invariant i == 0 ==> live == old(live) && calm == old(calm) && running == old(running)
        invariant Lost(was, running, notes) == Lost(was, old(running), old(notes))
        invariant i > 0 ==> Told(due, tried, live, ok) && (calm ==> ok)
        invariant i > 0 && ok ==> was - running == Lost(was, running, notes)
      {
        live, calm := true, *;
        due := notes;
        ok, tried := Recover(was);
      }
    }
  }
}
