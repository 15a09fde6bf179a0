// What the events of the apps' containers mean: which are published, against
// what happened and what was published before.
module DockerWatch {
  import opened Wrappers
  import opened Strings

  // Seconds.
  const WatchWindow: nat := 600
  const RestartsForALoop: nat := 3
  const StopGrace: nat := 60

  datatype Action = Kill | Die(exitCode: string) | Start | FoundUnhealthy | FoundHealthy | Other

  // One Docker event; held: an operation holds the app.
  datatype Event = Event(at: int, container: string, action: Action, held: bool)

  // What is known to have happened to a container: an event, or that the watch
  // resumed and found it so.
  datatype Happened = Seen(e: Event) | Resumed(at: int, runs: bool, unhealthy: bool)

  datatype Published =
    | Died(app: string, container: string)
    | Unhealthy(app: string, container: string)
    | Restarting(app: string, container: string)
    | Healthy(app: string, container: string)

  // --- what happened, read off a container's history ---

  type History = seq<Happened>

  // Since when it has run and not been unhealthy.
  function WellSince(h: History): Option<int> {
    if h == [] then None
    else
      var before := h[..|h| - 1];
      match h[|h| - 1]
      case Resumed(at, runs, unhealthy) => if runs && !unhealthy then Some(at) else None
      case Seen(e) =>
        match e.action
        case Start => Some(e.at)
        case Die(_) => None
        case FoundUnhealthy => None
        case FoundHealthy => if WellSince(before).Some? then WellSince(before) else Some(e.at)
        case _ => WellSince(before)
  }

  // It was found well at i, and nothing after says otherwise.
  predicate WellFrom(h: History, i: nat)
    requires i < |h|
  {
    && MakesWell(h[i])
    && forall j :: i < j < |h| ==> !MakesUnwell(h[j])
  }

  predicate MakesWell(x: Happened) {
    match x
    case Resumed(_, runs, unhealthy) => runs && !unhealthy
    case Seen(e) => e.action == Start || e.action == FoundHealthy
  }

  predicate MakesUnwell(x: Happened) {
    match x
    case Resumed(_, runs, unhealthy) => !(runs && !unhealthy)
    case Seen(e) => e.action.Die? || e.action == FoundUnhealthy
  }

  function TimeOf(x: Happened): int {
    match x case Resumed(at, _, _) => at case Seen(e) => e.at
  }

  // Well since t: found well at t, and nothing since says otherwise.
  lemma {:induction false} WellSinceMeans(h: History)
    ensures WellSince(h).Some? ==> exists i :: 0 <= i < |h| && WellFrom(h, i) && TimeOf(h[i]) == WellSince(h).value
    ensures WellSince(h).None? ==> forall i :: 0 <= i < |h| ==> !WellFrom(h, i)
  {
    if h != [] {
      var before, k := h[..|h| - 1], |h| - 1;
      WellSinceMeans(before);
      if WellSince(h).Some? {
        if MakesWell(h[k]) && !(h[k].Seen? && h[k].e.action == FoundHealthy && WellSince(before).Some?) {
          assert WellFrom(h, k);
        } else {
          var i :| 0 <= i < |before| && WellFrom(before, i) && TimeOf(before[i]) == WellSince(before).value;
          assert WellFrom(h, i);
        }
      } else {
        forall i | 0 <= i < |h|
          ensures !WellFrom(h, i)
        {
          if i < k && WellFrom(h, i) {
            assert WellFrom(before, i);
          }
        }
      }
    }
  }

  function LastKill(h: History): Option<int> {
    if h == [] then None
    else match h[|h| - 1]
      case Seen(Event(at, _, Kill, _)) => Some(at)
      case _ => LastKill(h[..|h| - 1])
  }

  // Somebody asked for what happens at a time.
  predicate Asked(h: History, at: int) {
    LastKill(h).Some? && at - LastKill(h).value <= StopGrace
  }

  // The starts nobody asked for, which no operation made.
  function Unasked(h: History): seq<int> {
    if h == [] then []
    else
      var before := h[..|h| - 1];
      match h[|h| - 1]
      case Seen(Event(at, _, Start, held)) => if Asked(before, at) || held then Unasked(before)
          else Unasked(before) + [at]
      case _ => Unasked(before)
  }

  // Those of a window that ends at a time.
  function Recent(starts: seq<int>, at: int): seq<int> {
    if starts == [] then []
    else Recent(starts[..|starts| - 1], at) + if at - starts[|starts| - 1] < WatchWindow then [starts[|starts| - 1]]
        else []
  }

  lemma {:induction false} RecentOfRecent(starts: seq<int>, s: int, t: int)
    requires s <= t
    ensures Recent(Recent(starts, s), t) == Recent(starts, t)
  {
    if starts != [] {
      var front, last := starts[..|starts| - 1], starts[|starts| - 1];
      RecentOfRecent(front, s, t);
      if s - last < WatchWindow {
        assert (Recent(front, s) + [last])[..|Recent(front, s)|] == Recent(front, s);
      } else {
        assert Recent(front, s) + [] == Recent(front, s) && Recent(front, t) + [] == Recent(front, t);
      }
    }
  }

  // What is remembered of the starts: those recent at the last.
  function LatestStarts(starts: seq<int>): seq<int> {
    if starts == [] then [] else Recent(starts, starts[|starts| - 1])
  }

  lemma LatestMore(starts: seq<int>, at: int)
    requires starts != [] ==> starts[|starts| - 1] <= at
    ensures LatestStarts(starts + [at]) == Recent(LatestStarts(starts), at) + [at]
  {
    assert (starts + [at])[..|starts|] == starts;
    if starts != [] {
      RecentOfRecent(starts, starts[|starts| - 1], at);
    }
  }

  // --- what was published ---

  // What was published since an app was last healthy.
  function Episode(log: seq<Published>, app: string): seq<Published> {
    if log == [] then []
    else
      var last := log[|log| - 1];
      if last.Healthy? && last.app == app then [] else Episode(log[..|log| - 1], app) + [last]
  }

  predicate Troubled(log: seq<Published>, app: string, container: string) {
    exists p <- Episode(log, app) :: !p.Healthy? && p.app == app && p.container == container
  }

  predicate Looping(log: seq<Published>, app: string, container: string) {
    Restarting(app, container) in Episode(log, app)
  }

  // An app is healthy again only after a trouble of this episode, and a
  // container is said to be restarting once an episode.
  ghost predicate Orderly(log: seq<Published>) {
    forall k :: 0 <= k < |log| ==>
      (log[k].Healthy? ==> exists c :: Troubled(log[..k], log[k].app, c)) &&
      (log[k].Restarting? ==> !Looping(log[..k], log[k].app, log[k].container))
  }

  lemma OrderlyMore(log: seq<Published>, p: Published)
    requires Orderly(log)
    requires p.Healthy? ==> exists c :: Troubled(log, p.app, c)
    requires p.Restarting? ==> !Looping(log, p.app, p.container)
    ensures Orderly(log + [p])
  {
    assert forall k :: 0 <= k < |log| ==> (log + [p])[..k] == log[..k];
    assert (log + [p])[..|log|] == log;
  }

  // Publishing a trouble adds it to its app's episode and to no other's.
  lemma EpisodeMore(log: seq<Published>, p: Published, app: string)
    ensures Episode(log + [p], app) == if p.Healthy? && p.app == app then [] else Episode(log, app) + [p]
  {
    assert (log + [p])[..|log|] == log;
  }

  // Between two healthy events of an app there is a trouble of it.
  lemma TroubleBetween(log: seq<Published>, i: nat, j: nat) returns (k: nat)
    requires Orderly(log) && i < j < |log| && log[i].Healthy? && log[j].Healthy? && log[i].app == log[j].app
    ensures i < k < j && !log[k].Healthy? && log[k].app == log[i].app
  {
    var c :| Troubled(log[..j], log[j].app, c);
    k := EpisodeIn(log[..j], log[j].app, i, c);
  }

  lemma {:induction false} EpisodeIn(log: seq<Published>, app: string, i: nat, c: string) returns (k: nat)
    requires i < |log| && log[i].Healthy? && log[i].app == app && Troubled(log, app, c)
    ensures i < k < |log| && !log[k].Healthy? && log[k].app == app
    decreases |log|
  {
    var last, front := log[|log| - 1], log[..|log| - 1];
    if !last.Healthy? && last.app == app {
      k := |log| - 1;
    } else {
      k := EpisodeIn(front, app, i, c);
    }
  }

  // --- the watch ---

  // What the watch remembers of one container.
  datatype Watched = Watched(
    last: int, killedAt: Option<int>, starts: seq<int>, running: bool, unhealthy: bool, fineSince: int,
    troubled: bool, looping: bool)

  // It is what its history says.
  predicate Remembers(c: Watched, h: History) {
    && (c.running && !c.unhealthy <==> WellSince(h).Some?)
    && (WellSince(h).Some? ==> WellSince(h).value == c.fineSince)
    && c.killedAt == LastKill(h)
    && c.starts == LatestStarts(Unasked(h))
  }

  // It is what was published in this episode.
  predicate Owes(c: Watched, log: seq<Published>, app: string, name: string) {
    && (c.troubled <==> Troubled(log, app, name))
    && (c.looping <==> Looping(log, app, name))
  }

  predicate UpTo(h: History, now: int) {
    (forall x <- h :: TimeOf(x) <= now) && (Unasked(h) != [] ==> Unasked(h)[|Unasked(h)| - 1] <= now)
  }

  lemma HistoryMore(h: History, x: Happened)
    ensures (h + [x])[..|h|] == h
    ensures x.Seen? && x.e.action != Start ==> Unasked(h + [x]) == Unasked(h)
    ensures x.Resumed? ==> Unasked(h + [x]) == Unasked(h)
    ensures x.Seen? && x.e.action == Start ==>
              Unasked(h + [x]) == if Asked(h, x.e.at) || x.e.held then Unasked(h) else Unasked(h) + [x.e.at]
  {
    assert (h + [x])[..|h|] == h;
  }

  // A start: it counts towards a loop unless it was asked for.
  method ObserveStart(c: Watched, e: Event, ghost h: History) returns (now: Watched, loops: bool)
    requires Remembers(c, h) && UpTo(h, e.at) && e.action == Start
    ensures Remembers(now, h + [Seen(e)]) && UpTo(h + [Seen(e)], e.at)
    ensures now == c.(last := now.last, starts := now.starts, running := true, unhealthy := false, fineSince := e.at)
    ensures now.last == e.at && loops == LoopsAt(h, e)
  {
    StartRemembered(h, e);
    now := c.(last := e.at, running := true, unhealthy := false, fineSince := e.at);
    loops := false;
    if !(c.killedAt.Some? && e.at - c.killedAt.value <= StopGrace) && !e.held {
      now := now.(starts := Recent(c.starts, e.at) + [e.at]);
      loops := |now.starts| > RestartsForALoop;
    }
  }

  // What a start adds to a history.
  lemma StartRemembered(h: History, e: Event)
    requires UpTo(h, e.at) && e.action == Start
    ensures UpTo(h + [Seen(e)], e.at)
    ensures WellSince(h + [Seen(e)]) == Some(e.at) && LastKill(h + [Seen(e)]) == LastKill(h)
    ensures var counts := !Asked(h, e.at) && !e.held;
      && LatestStarts(Unasked(h + [Seen(e)])) ==
         (if counts then Recent(LatestStarts(Unasked(h)), e.at) + [e.at] else LatestStarts(Unasked(h)))
      && (counts ==> LatestStarts(Unasked(h + [Seen(e)])) == Recent(Unasked(h + [Seen(e)]), e.at))
  {
    HistoryMore(h, Seen(e));
    LatestMore(Unasked(h), e.at);
  }

  // Any other event: what it makes of a container.
  method ObserveOther(c: Watched, e: Event, ghost h: History) returns (now: Watched)
    requires Remembers(c, h) && UpTo(h, e.at) && e.action != Start
    ensures Remembers(now, h + [Seen(e)]) && UpTo(h + [Seen(e)], e.at)
    ensures now.last == e.at && now.troubled == c.troubled && now.looping == c.looping
  {
    HistoryMore(h, Seen(e));
    now := c.(last := e.at);
    match e.action {
      case Kill => now := now.(killedAt := Some(e.at));
      case Die(_) => now := now.(running := false);
      case FoundUnhealthy => now := now.(unhealthy := true);
      case FoundHealthy =>
        if c.unhealthy || !c.running {
          now := now.(fineSince := e.at);
        }
        now := now.(running := true, unhealthy := false);
      case _ =>
    }
  }

  // What one event makes of a container, and what it publishes.
  method ObserveOne(c: Watched, e: Event, app: string, ghost h: History, ghost log: seq<Published>)
      returns (now: Watched, out: seq<Published>)
    requires Remembers(c, h) && UpTo(h, e.at) && Owes(c, log, app, e.container)
    ensures Remembers(now, h + [Seen(e)]) && UpTo(h + [Seen(e)], e.at)
    ensures out == ToPublish(e, app, h, log)
    ensures Owes(now, log + out, app, e.container)
  {
    if e.action == Start {
      now, out := PublishStart(c, e, app, h, log);
    } else {
      now, out := PublishOther(c, e, app, h, log);
    }
    OwesMore(c, now, log, out, app, e.container);
  }

  method PublishStart(c: Watched, e: Event, app: string, ghost h: History, ghost log: seq<Published>)
      returns (now: Watched, out: seq<Published>)
    requires Remembers(c, h) && UpTo(h, e.at) && Owes(c, log, app, e.container) && e.action == Start
    ensures Remembers(now, h + [Seen(e)]) && UpTo(h + [Seen(e)], e.at)
    ensures out == ToPublish(e, app, h, log)
    ensures now.troubled == (c.troubled || out != []) && now.looping == (c.looping || out != [])
  {
    out := [];
    var loops;
    now, loops := ObserveStart(c, e, h);
    if loops && !c.looping {
      out := [Restarting(app, e.container)];
      now := now.(troubled := true, looping := true);
    }
  }

  method PublishOther(c: Watched, e: Event, app: string, ghost h: History, ghost log: seq<Published>)
      returns (now: Watched, out: seq<Published>)
    requires Remembers(c, h) && UpTo(h, e.at) && e.action != Start
    ensures Remembers(now, h + [Seen(e)]) && UpTo(h + [Seen(e)], e.at)
    ensures out == ToPublish(e, app, h, log)
    ensures now.troubled == (c.troubled || out != []) && now.looping == c.looping
  {
    out := [];
    var asked := c.killedAt.Some? && e.at - c.killedAt.value <= StopGrace;
    now := ObserveOther(c, e, h);
    if e.action == FoundUnhealthy {
      out := [Unhealthy(app, e.container)];
      now := now.(troubled := true);
    } else if e.action.Die? && e.action.exitCode != "0" && !asked && !e.held {
      out := [Died(app, e.container)];
      now := now.(troubled := true);
    }
  }

  lemma OwesMore(c: Watched, now: Watched, log: seq<Published>, out: seq<Published>, app: string, name: string)
    requires Owes(c, log, app, name)
    requires out == [] || (|out| == 1 && !out[0].Healthy? && out[0].app == app && out[0].container == name)
    requires now.troubled == (c.troubled || out != [])
    requires now.looping == (c.looping || out == [Restarting(app, name)])
    ensures Owes(now, log + out, app, name)
  {
    if out == [] {
      assert log + out == log;
    } else {
      assert out == [out[0]];
      EpisodeMore(log, out[0], app);
    }
  }

  // A fourth start in the window that nobody asked for.
  predicate LoopsAt(h: History, e: Event) {
    !Asked(h, e.at) && !e.held && |Recent(Unasked(h + [Seen(e)]), e.at)| > RestartsForALoop
  }

  // What an event is published as, by what happened to its container and what
  // was published: a death nobody asked for, an unhealthy container, a fourth
  // start in the window, once an episode.
  function ToPublish(e: Event, app: string, h: History, log: seq<Published>): seq<Published> {
    match e.action
    case Die(exitCode) => if exitCode != "0" && !Asked(h, e.at) && !e.held then [Died(app, e.container)] else []
    case FoundUnhealthy => [Unhealthy(app, e.container)]
    case Start =>
      if LoopsAt(h, e) && !Looping(log, app, e.container) then [Restarting(app, e.container)] else []
    case _ => []
  }

  // What was published of one container changes no other's.
  lemma OtherOwes(c: Watched, log: seq<Published>, out: seq<Published>, app: string, name: string)
    requires Owes(c, log, app, name)
    requires out == [] || (|out| == 1 && !out[0].Healthy? && out[0].container != name)
    ensures Owes(c, log + out, app, name)
  {
    if out == [] {
      assert log + out == log;
    } else {
      assert out == [out[0]];
      EpisodeMore(log, out[0], app);
    }
  }

  // An app healthy again owes nothing; the others owe what they did.
  lemma HealthyOwes(log: seq<Published>, p: Published, app: string, name: string)
    requires p.Healthy?
    ensures p.app == app ==> !Troubled(log + [p], app, name) && !Looping(log + [p], app, name)
    ensures p.app != app ==> (Troubled(log + [p], app, name) <==> Troubled(log, app, name))
    ensures p.app != app ==> (Looping(log + [p], app, name) <==> Looping(log, app, name))
  {
    EpisodeMore(log, p, app);
  }

  const Fresh := Watched(0, None, [], false, false, 0, false, false)

  // Running and not unhealthy for the window.
  predicate LongWell(h: History, now: int) {
    WellSince(h).Some? && now - WellSince(h).value >= WatchWindow
  }

  method Least(names: set<string>) returns (name: string)
    requires names != {}
    ensures name in names && forall n <- names :: !StringLess(n, name)
  {
    name :| name in names;
    var left := names - {name};
    StringTotal(name, name);
    while left != {}
      invariant left <= names && name in names
      invariant forall n <- names - left :: !StringLess(n, name)
      decreases left
    {
      var n :| n in left;
      StringTotal(n, name);
      if StringLess(n, name) {
        forall m <- names - left
          ensures !StringLess(m, n)
        {
          if StringLess(m, n) {
            StringTransitive(m, n, name);
          }
        }
        StringTotal(n, n);
        name := n;
      }
      left := left - {n};
    }
  }

  // --- the containers together ---

  type Containers = map<string, Watched>
  type Histories = map<string, History>

  predicate AllRemember(cs: Containers, hs: Histories, clock: int) {
    cs.Keys == hs.Keys && forall n <- cs :: Remembers(cs[n], hs[n]) && UpTo(hs[n], clock)
  }

  // Whatever is in trouble is remembered, and nothing else is taken to be.
  ghost predicate AllOwe(cs: Containers, log: seq<Published>, appOf: string -> string) {
    && (forall n <- cs :: Owes(cs[n], log, appOf(n), n))
    && (forall n :: n !in cs ==> !Troubled(log, appOf(n), n))
  }

  lemma RememberOne(cs: Containers, hs: Histories, clock: int, name: string, c: Watched, h: History, at: int)
    requires AllRemember(cs, hs, clock) && clock <= at && Remembers(c, h) && UpTo(h, at)
    ensures AllRemember(cs[name := c], hs[name := h], at)
  {
  }

  lemma OweOne(
      cs: Containers, log: seq<Published>, appOf: string -> string, name: string, c: Watched, out: seq<Published>)
    requires AllOwe(cs, log, appOf) && Owes(c, log + out, appOf(name), name)
    requires out == [] || (|out| == 1 && !out[0].Healthy? && out[0].container == name)
    ensures AllOwe(cs[name := c], log + out, appOf)
  {
    forall n <- cs | n != name
      ensures Owes(cs[n], log + out, appOf(n), n)
    {
      OtherOwes(cs[n], log, out, appOf(n), n);
    }
    forall n | n !in cs && n != name
      ensures !Troubled(log + out, appOf(n), n)
    {
      OtherOwes(Fresh, log, out, appOf(n), n);
    }
  }

  // Some containers owe nothing any more.
  function Rested(cs: Containers, names: set<string>): Containers {
    map n | n in cs :: if n in names then cs[n].(troubled := false, looping := false) else cs[n]
  }

  lemma OweRested(cs: Containers, log: seq<Published>, appOf: string -> string, names: set<string>, p: Published)
    requires AllOwe(cs, log, appOf) && p.Healthy?
    requires forall n <- cs :: (n in names <==> appOf(n) == p.app && cs[n].troubled)
    ensures AllOwe(Rested(cs, names), log + [p], appOf)
  {
    forall n <- cs
      ensures Owes(Rested(cs, names)[n], log + [p], appOf(n), n)
    {
      HealthyOwes(log, p, appOf(n), n);
    }
    forall n | n !in cs
      ensures !Troubled(log + [p], appOf(n), n)
    {
      HealthyOwes(log, p, appOf(n), n);
    }
  }

  lemma RememberRested(cs: Containers, hs: Histories, clock: int, names: set<string>)
    requires AllRemember(cs, hs, clock)
    ensures AllRemember(Rested(cs, names), hs, clock)
  {
    assert forall n <- cs :: Remembers(Rested(cs, names)[n], hs[n]);
  }

  function ResumedContainers(cs: Containers, now: int, running: map<string, bool>): Containers {
    map n | n in cs :: cs[n].(running := n in running, unhealthy := n in running && running[n], fineSince := now)
  }

  function ResumedHistories(hs: Histories, now: int, running: map<string, bool>): Histories {
    map n | n in hs :: hs[n] + [Resumed(now, n in running, n in running && running[n])]
  }

  lemma RememberResumed(cs: Containers, hs: Histories, clock: int, now: int, running: map<string, bool>)
    requires AllRemember(cs, hs, clock) && clock <= now
    ensures AllRemember(ResumedContainers(cs, now, running), ResumedHistories(hs, now, running), now)
  {
    forall n <- cs
      ensures Remembers(ResumedContainers(cs, now, running)[n], ResumedHistories(hs, now, running)[n])
      ensures UpTo(ResumedHistories(hs, now, running)[n], now)
    {
      HistoryMore(hs[n], Resumed(now, n in running, n in running && running[n]));
    }
  }

  lemma OweResumed(cs: Containers, log: seq<Published>, appOf: string -> string, now: int, running: map<string, bool>)
    requires AllOwe(cs, log, appOf)
    ensures AllOwe(ResumedContainers(cs, now, running), log, appOf)
  {
  }

  ghost predicate Sound(cs: Containers, hs: Histories, clock: int, log: seq<Published>, appOf: string -> string) {
    AllRemember(cs, hs, clock) && AllOwe(cs, log, appOf) && Orderly(log)
  }

  lemma ResumeKeeps(
      cs: Containers, hs: Histories, clock: int, log: seq<Published>, appOf: string -> string,
      now: int, running: map<string, bool>)
    requires Sound(cs, hs, clock, log, appOf) && clock <= now
    ensures Sound(ResumedContainers(cs, now, running), ResumedHistories(hs, now, running), now, log, appOf)
  {
    RememberResumed(cs, hs, clock, now, running);
    OweResumed(cs, log, appOf, now, running);
  }

  lemma TakeKeeps(
      cs: Containers, hs: Histories, clock: int, log: seq<Published>, appOf: string -> string,
      e: Event, h: History, now: Watched, out: seq<Published>)
    requires Sound(cs, hs, clock, log, appOf) && clock <= e.at
    requires Remembers(now, h + [Seen(e)]) && UpTo(h + [Seen(e)], e.at)
    requires Owes(now, log + out, appOf(e.container), e.container)
    requires out == ToPublish(e, appOf(e.container), h, log)
    ensures Sound(cs[e.container := now], hs[e.container := h + [Seen(e)]], e.at, log + out, appOf)
  {
    RememberOne(cs, hs, clock, e.container, now, h + [Seen(e)], e.at);
    OweOne(cs, log, appOf, e.container, now, out);
    LogMore(log, out, e, appOf(e.container), h);
  }

  // The containers of an app that are in trouble; there is one.
  predicate InTrouble(cs: Containers, appOf: string -> string, app: string, names: set<string>) {
    names != {} && names <= cs.Keys && forall n <- cs :: (n in names <==> appOf(n) == app && cs[n].troubled)
  }

  lemma HealthyKeeps(
      cs: Containers, hs: Histories, clock: int, log: seq<Published>, appOf: string -> string,
      names: set<string>, p: Published, now: Containers, told: seq<Published>)
    requires Sound(cs, hs, clock, log, appOf) && p.Healthy? && p.container in names
        && InTrouble(cs, appOf, p.app, names)
    requires now == Rested(cs, names) && told == log + [p]
    ensures Sound(now, hs, clock, told, appOf)
  {
    assert Troubled(log, p.app, p.container);
    OrderlyMore(log, p);
    OweRested(cs, log, appOf, names, p);
    RememberRested(cs, hs, clock, names);
  }

  // --- the time passing ---

  predicate WellNow(c: Watched, now: int) {
    c.running && !c.unhealthy && now - c.fineSince >= WatchWindow
  }

  // The troubled containers that run well again.
  function WellAgain(cs: Containers, now: int): set<string> {
    set n | n in cs && cs[n].troubled && WellNow(cs[n], now)
  }

  // The apps with one that does not.
  function UnwellApps(cs: Containers, appOf: string -> string, now: int): set<string> {
    set n | n in cs && cs[n].troubled && !WellNow(cs[n], now) :: appOf(n)
  }

  function AppsOf(names: set<string>, appOf: string -> string): set<string> {
    set n | n in names :: appOf(n)
  }

  // Those nothing happened to for long, and that owe nothing.
  function Stale(cs: Containers, now: int): set<string> {
    set n | n in cs && !cs[n].troubled && now - cs[n].last >= WatchWindow
  }

  method Look(cs: Containers, appOf: string -> string, now: int)
      returns (kept: Containers, well: set<string>, unwell: set<string>)
    ensures kept == cs - Stale(cs, now)
    ensures well == WellAgain(cs, now) && unwell == UnwellApps(cs, appOf, now)
  {
    kept, well, unwell := cs, {}, {};
    var left := cs.Keys;
    ghost var seen := map[];
    while left != {}
      invariant left <= cs.Keys && seen == cs - left
      invariant kept == cs - Stale(seen, now)
      invariant well == WellAgain(seen, now) && unwell == UnwellApps(seen, appOf, now)
      decreases left
    {
      var name :| name in left;
      var c := cs[name];
      if !c.troubled {
        if now - c.last >= WatchWindow {
          kept := kept - {name};
        }
      } else if WellNow(c, now) {
        well := well + {name};
      } else {
        unwell := unwell + {appOf(name)};
      }
      left := left - {name};
      LookMore(seen, name, c, appOf, now);
      seen := seen[name := c];
      assert seen == cs - left;
    }
    assert seen == cs;
  }

  lemma LookMore(seen: Containers, name: string, c: Watched, appOf: string -> string, now: int)
    requires name !in seen
    ensures var more := seen[name := c];
      && Stale(more, now) == Stale(seen, now) + (if !c.troubled && now - c.last >= WatchWindow then {name} else {})
      && WellAgain(more, now) == WellAgain(seen, now) + (if c.troubled && WellNow(c, now) then {name} else {})
      && UnwellApps(more, appOf, now) ==
         UnwellApps(seen, appOf, now) + (if c.troubled && !WellNow(c, now) then {appOf(name)} else {})
  {
    var more := seen[name := c];
    forall a
      ensures a in UnwellApps(more, appOf, now) <==>
              a in UnwellApps(seen, appOf, now) || (c.troubled && !WellNow(c, now) && a == appOf(name))
    {
      if a in UnwellApps(seen, appOf, now) {
        var n :| n in seen && seen[n].troubled && !WellNow(seen[n], now) && appOf(n) == a;
        assert more[n] == seen[n];
      }
      assert more[name] == c;
    }
  }

  // What owes nothing may be forgotten.
  lemma ForgetKeeps(cs: Containers, hs: Histories, clock: int, now: int, log: seq<Published>, appOf: string -> string)
    requires Sound(cs, hs, clock, log, appOf) && clock <= now
    ensures Sound(cs - Stale(cs, now), hs - Stale(cs, now), now, log, appOf)
  {
    var gone := Stale(cs, now);
    forall n | n !in cs - gone
      ensures !Troubled(log, appOf(n), n)
    {
      if n in cs {
        assert Owes(cs[n], log, appOf(n), n);
      }
    }
  }

  // An app to be said healthy: something of it is in trouble, and all that is
  // has run well for the window.
  ghost predicate Over(hs: Histories, log: seq<Published>, appOf: string -> string, app: string, now: int) {
    && (exists n :: n in hs && appOf(n) == app && Troubled(log, app, n))
    && (forall n <- hs :: appOf(n) == app && Troubled(log, app, n) ==> LongWell(hs[n], now))
  }

  lemma OverMeans(cs: Containers, hs: Histories, clock: int, log: seq<Published>, appOf: string -> string,
      app: string, now: int)
    requires Sound(cs, hs, clock, log, appOf)
    ensures Over(hs, log, appOf, app, now) <==>
            app in AppsOf(WellAgain(cs, now), appOf) && app !in UnwellApps(cs, appOf, now)
  {
    if Over(hs, log, appOf, app, now) {
      var n :| n in hs && appOf(n) == app && Troubled(log, app, n);
      assert Owes(cs[n], log, appOf(n), n) && Remembers(cs[n], hs[n]);
      assert n in WellAgain(cs, now);
      forall m <- cs | appOf(m) == app && cs[m].troubled
        ensures WellNow(cs[m], now)
      {
        assert Owes(cs[m], log, appOf(m), m) && Remembers(cs[m], hs[m]);
      }
    }
    if app in AppsOf(WellAgain(cs, now), appOf) && app !in UnwellApps(cs, appOf, now) {
      forall m <- hs | appOf(m) == app && Troubled(log, app, m)
        ensures LongWell(hs[m], now)
      {
        assert Owes(cs[m], log, appOf(m), m) && Remembers(cs[m], hs[m]);
        assert WellNow(cs[m], now);
      }
      var n :| n in WellAgain(cs, now) && appOf(n) == app;
      assert Owes(cs[n], log, appOf(n), n);
    }
  }

  class Watch {
    const appOf: string -> string      // the app a container's name belongs to
    var containers: Containers

    ghost var clock: int
    ghost var histories: Histories
    ghost var log: seq<Published>

    ghost predicate Valid()
      reads this
    {
      Sound(containers, histories, clock, log, appOf)
    }

    constructor (appOf: string -> string, now: int)
      ensures Valid() && this.appOf == appOf && log == [] && containers == map[] && clock == now
    {
      this.appOf := appOf;
      containers, clock, histories, log := map[], now, map[], [];
    }

    ghost function HistoryOf(n: string): History
      reads this
    {
      if n in histories then histories[n] else []
    }

    // observe.
    method Observe(e: Event) returns (out: seq<Published>)
      requires Valid() && clock <= e.at
      modifies this
      ensures Valid() && clock == e.at && log == old(log) + out
      ensures out == ToPublish(e, appOf(e.container), old(HistoryOf(e.container)), old(log))
      ensures histories == old(histories)[e.container := old(HistoryOf(e.container)) + [Seen(e)]]
    {
      ghost var h := HistoryOf(e.container);
      var now;
      now, out := ObserveKnown(e, h);
      Take(e, h, now, out);
    }

    // The event, on what is remembered of its container.
    method ObserveKnown(e: Event, ghost h: History) returns (now: Watched, out: seq<Published>)
      requires Valid() && clock <= e.at && h == HistoryOf(e.container)
      ensures Remembers(now, h + [Seen(e)]) && UpTo(h + [Seen(e)], e.at)
      ensures Owes(now, log + out, appOf(e.container), e.container)
      ensures out == ToPublish(e, appOf(e.container), h, log)
    {
      var c := if e.container in containers then containers[e.container] else Fresh;
      now, out := ObserveOne(c, e, appOf(e.container), h, log);
    }

    method Take(e: Event, ghost h: History, now: Watched, ghost out: seq<Published>)
      requires Valid() && clock <= e.at && h == HistoryOf(e.container)
      requires Remembers(now, h + [Seen(e)]) && UpTo(h + [Seen(e)], e.at)
      requires Owes(now, log + out, appOf(e.container), e.container)
      requires out == ToPublish(e, appOf(e.container), h, log)
      modifies this
      ensures Valid() && clock == e.at && log == old(log) + out
      ensures histories == old(histories)[e.container := h + [Seen(e)]]
    {
      TakeKeeps(containers, histories, clock, log, appOf, e, h, now, out);
      containers := containers[e.container := now];
      histories, log, clock := histories[e.container := h + [Seen(e)]], log + out, e.at;
    }

    // One app said healthy: its containers owe nothing any more.
    method SayHealthy(app: string, names: set<string>) returns (p: Published)
      requires Valid() && InTrouble(containers, appOf, app, names)
      modifies `containers, `log
      ensures Valid() && log == old(log) + [p] && p.Healthy? && p.app == app && p.container in names
      ensures containers == Rested(old(containers), names)
    {
      var name := Least(names);
      p := Healthy(app, name);
      Rest(names, p);
    }

    method Rest(names: set<string>, p: Published)
      requires Valid() && InTrouble(containers, appOf, p.app, names) && p.Healthy? && p.container in names
      modifies `containers, `log
      ensures Valid() && log == old(log) + [p] && containers == Rested(old(containers), names)
    {
      var now := Rested(containers, names);
      ghost var told := log + [p];
      HealthyKeeps(containers, histories, clock, log, appOf, names, p, now, told);
      containers, log := now, told;
    }

    // Some of the apps whose troubles are over were said healthy.
    ghost predicate Saying(was: Containers, told: seq<Published>, apps: set<string>, left: set<string>,
        out: seq<Published>)
      reads this
    {
      Valid() && log == told + out && AsWas(containers, was, appOf, left) && AllSaid(out, apps, left)
    }

    method SayOne(
        app: string, well: set<string>, ghost was: Containers, ghost told: seq<Published>, ghost now: int,
        ghost apps: set<string>, ghost left: set<string>, ghost out: seq<Published>) returns (p: Published)
      requires Saying(was, told, apps, left, out) && app in left
      requires well == WellAgain(was, now) && apps == AppsOf(well, appOf) - UnwellApps(was, appOf, now)
      modifies `containers, `log
      ensures Saying(was, told, apps, left - {app}, out + [p])
    {
      var names := set n | n in well && appOf(n) == app;
      NamesOf(was, containers, appOf, now, app, names, left);
      p := SayHealthy(app, names);
      AllSaidMore(out, apps, left, p, told);
    }

    // The apps whose troubles are over, said healthy one by one.
    method SayAll(well: set<string>, unwell: set<string>, ghost now: int) returns (out: seq<Published>)
      requires Valid() && well == WellAgain(containers, now) && unwell == UnwellApps(containers, appOf, now)
      modifies `containers, `log
      ensures Valid() && log == old(log) + out
      ensures forall p <- out :: p.Healthy?
      ensures Said(out) == AppsOf(well, appOf) - unwell && OnceEach(out)
    {
      out := [];
      var apps := AppsOf(well, appOf) - unwell;
      var left := apps;
      while left != {}
        invariant Saying(old(containers), old(log), apps, left, out)
        decreases left
      {
        var app :| app in left;
        var p := SayOne(app, well, old(containers), old(log), now, apps, left, out);
        out := out + [p];
        left := left - {app};
      }
    }

    // tick.
    method Tick(now: int) returns (out: seq<Published>)
      requires Valid() && clock <= now
      modifies this
      ensures Valid() && clock == now && log == old(log) + out
      ensures forall p <- out :: p.Healthy?
      ensures forall app :: Over(old(histories), old(log), appOf, app, now) <==> app in Said(out)
      ensures OnceEach(out)
      ensures forall n <- old(histories) :: Troubled(old(log), appOf(n), n) ==>
          n in histories && histories[n] == old(histories)[n]
    {
      var kept, well, unwell := Look(containers, appOf, now);
      forall app
        ensures Over(histories, log, appOf, app, now) <==> app in AppsOf(well, appOf) - unwell
      {
        OverMeans(containers, histories, clock, log, appOf, app, now);
      }
      ForgetKeeps(containers, histories, clock, now, log, appOf);
      StaleKeepsWell(containers, appOf, now);
      histories, clock := histories - Stale(containers, now), now;
      containers := kept;
      out := SayAll(well, unwell, now);
    }

    // resume.
    method Resume(now: int, running: map<string, bool>)
      requires Valid() && clock <= now
      modifies this
      ensures Valid() && clock == now && log == old(log)
      ensures histories == ResumedHistories(old(histories), now, running)
    {
      ResumeKeeps(containers, histories, clock, log, appOf, now, running);
      containers, histories, clock :=
        ResumedContainers(containers, now, running), ResumedHistories(histories, now, running), now;
    }
  }

  // The apps some events are of.
  function Said(out: seq<Published>): set<string> {
    set p | p in out :: p.app
  }

  predicate OnceEach(out: seq<Published>) {
    forall i, j :: 0 <= i < j < |out| ==> out[i].app != out[j].app
  }

  // The containers of some apps are as they were.
  predicate AsWas(cs: Containers, was: Containers, appOf: string -> string, left: set<string>) {
    cs.Keys == was.Keys && forall n <- cs :: appOf(n) in left ==> cs[n] == was[n]
  }

  predicate AllSaid(out: seq<Published>, apps: set<string>, left: set<string>) {
    && left <= apps && Said(out) == apps - left && OnceEach(out) && forall p <- out :: p.Healthy?
  }

  lemma AllSaidMore(out: seq<Published>, apps: set<string>, left: set<string>, p: Published, told: seq<Published>)
    requires AllSaid(out, apps, left) && p.Healthy? && p.app in left
    ensures AllSaid(out + [p], apps, left - {p.app})
    ensures told + (out + [p]) == (told + out) + [p]
  {
    SaidMore(out, p);
    assert forall x <- out + [p] :: x in out || x == p;
  }

  lemma SaidMore(out: seq<Published>, p: Published)
    requires OnceEach(out) && p.app !in Said(out)
    ensures Said(out + [p]) == Said(out) + {p.app} && OnceEach(out + [p])
  {
    assert forall x :: x in out + [p] <==> x in out || x == p;
    forall i | 0 <= i < |out|
      ensures out[i].app != p.app
    {
      assert out[i] in out;
    }
  }

  // The containers of an app that is over are those in trouble.
  lemma NamesOf(
      was: Containers, cs: Containers, appOf: string -> string, now: int, app: string, names: set<string>,
          left: set<string>)
    requires app in left && AsWas(cs, was, appOf, left)
    requires left <= AppsOf(WellAgain(was, now), appOf) - UnwellApps(was, appOf, now)
    requires names == (set n | n in WellAgain(was, now) && appOf(n) == app)
    ensures InTrouble(cs, appOf, app, names)
    ensures AsWas(Rested(cs, names), was, appOf, left - {app})
  {
    assert app in AppsOf(WellAgain(was, now), appOf) && app !in UnwellApps(was, appOf, now);
    var n :| n in WellAgain(was, now) && appOf(n) == app;
    assert n in names;
  }

  lemma StaleKeepsWell(cs: Containers, appOf: string -> string, now: int)
    ensures WellAgain(cs - Stale(cs, now), now) == WellAgain(cs, now)
    ensures UnwellApps(cs - Stale(cs, now), appOf, now) == UnwellApps(cs, appOf, now)
  {
    var kept := cs - Stale(cs, now);
    assert forall n <- cs :: cs[n].troubled ==> n in kept && kept[n] == cs[n];
    forall a | a in UnwellApps(cs, appOf, now)
      ensures a in UnwellApps(kept, appOf, now)
    {
      var n :| n in cs && cs[n].troubled && !WellNow(cs[n], now) && appOf(n) == a;
      assert n in kept;
    }
  }

  lemma LogMore(log: seq<Published>, out: seq<Published>, e: Event, app: string, h: History)
    requires Orderly(log) && out == ToPublish(e, app, h, log)
    ensures Orderly(log + out)
  {
    if out == [] {
      assert log + out == log;
    } else {
      assert out == [out[0]];
      OrderlyMore(log, out[0]);
    }
  }

  datatype Step = Observed(e: Event) | Ticked(now: int) | Taken(now: int, running: map<string, bool>)

  function StepTime(s: Step): int {
    match s case Observed(e) => e.at case Ticked(now) => now case Taken(now, _) => now
  }

  // Over any sequence of events, ticks and breaks in the order of their times:
  // the log is orderly, and whatever is in trouble is remembered.
  method Run(appOf: string -> string, steps: seq<Step>) returns (w: Watch)
    requires forall i, j :: 0 <= i < j < |steps| ==> StepTime(steps[i]) <= StepTime(steps[j])
    ensures fresh(w) && w.Valid() && Orderly(w.log)
    ensures forall n :: Troubled(w.log, appOf(n), n) ==> n in w.containers && w.containers[n].troubled
  {
    w := new Watch(appOf, if steps == [] then 0 else StepTime(steps[0]));
    for i := 0 to |steps|
      invariant fresh(w) && w.Valid() && w.appOf == appOf
      invariant i < |steps| ==> w.clock <= StepTime(steps[i])
    {
      match steps[i] {
        case Observed(e) => var out := w.Observe(e);
        case Ticked(now) => var out := w.Tick(now);
        case Taken(now, running) => w.Resume(now, running);
      }
    }
  }
}
