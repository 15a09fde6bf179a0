// The checks a forge's pushes start for one app. Every step takes the lock once;
// any other step may come between two of a queued check.
module GitWebhook {
  import opened Wrappers

  // Milliseconds.
  const Debounce: nat := 10000
  const Patience: nat := 1800000

  datatype Answer = Held | Coalesced | Queued | Checking | NotStarted

  // How far a check that holds the app is: a queued one has still to be prepared,
  // which may fail.
  datatype Stage = Unprepared | Prepared | Reading

  // What holds the app: a check, or any other operation.
  datatype Holder = Check(stage: Stage) | Operation

  // The one check that can wait: for the window to close, for the app to come
  // free, and then for the lock.
  datatype Queue = Nothing | InWindow | ForApp(deadline: int) | Claimed | GivenUp

  type Push = nat

  predicate Spaced(starts: seq<int>) {
    forall i, j :: 0 <= i < j < |starts| ==> starts[i] + Debounce <= starts[j]
  }

  // What became of the pushes. accepted: with the number of the check each
  // joined; owed: since a check last began to read; seen: followed by the beginning
  // of a read; failed: the checks that gave up waiting or could not start.
  datatype Book = Book(accepted: map<Push, nat>, owed: set<Push>, seen: set<Push>, dropped: set<Push>, failed: set<nat>)
  {
    function Accept(p: Push, check: nat): Book {
      this.(accepted := accepted[p := check], owed := owed + {p})
    }

    function Read(): Book {
      this.(seen := seen + owed, owed := {})
    }

    // A check fails; what is owed is dropped when no other is left to read for it.
    function Fail(check: nat, last: bool): Book {
      if last then this.(failed := failed + {check}, dropped := dropped + owed, owed := {})
      else this.(failed := failed + {check})
    }

    // Every push accepted was followed by a read, or one of these checks may yet
    // begin one; but for those whose own check failed.
    ghost predicate Balanced(waiting: set<nat>) {
      && accepted.Keys == owed + seen + dropped
      && (forall p <- owed :: accepted[p] in failed + waiting)
      && (owed != {} ==> waiting != {})
      && (forall p <- dropped :: accepted[p] in failed)
    }

    lemma AcceptBalances(p: Push, check: nat, waiting: set<nat>, now: set<nat>)
      requires Balanced(waiting) && p !in accepted && waiting <= now && check in now
      ensures Accept(p, check).Balanced(now)
    {
      assert accepted[p := check].Keys == accepted.Keys + {p};
    }

    lemma FailBalances(check: nat, last: bool, waiting: set<nat>, now: set<nat>)
      requires Balanced(waiting) && now == waiting - {check} && (last <==> now == {})
      ensures Fail(check, last).Balanced(now)
    {
      assert failed + waiting <= failed + {check} + now;
    }

    lemma ReadBalances(waiting: set<nat>, now: set<nat>)
      requires Balanced(waiting)
      ensures Read().Balanced(now)
    {
    }

    // With no check left every push was seen, but for those whose own failed.
    lemma AtRest()
      requires Balanced({})
      ensures forall p <- accepted :: p in seen || accepted[p] in failed
    {
    }
  }

  // The starts of checks, a window apart, the last one remembered.
  predicate Timed(starts: seq<int>, last: Option<int>, now: int) {
    && Spaced(starts)
    && (last.None? ==> starts == [])
    && (last.Some? ==> starts != [] && last.value == starts[|starts| - 1] <= now)
  }

  class App {
    var now: int
    var last: Option<int>       // when a webhook last started a check
    var pending: bool           // a queued check waits
    var hold: Option<Holder>    // what runs on the app
    var queue: Queue

    ghost var book: Book
    ghost var checks: nat        // how many checks webhooks asked for
    ghost var queued: nat        // the number of the one that waits
    ghost var holding: nat       // the number of the one that holds the app
    ghost var starts: seq<int>   // when webhooks started checks

    constructor (now: int)
      ensures Valid() && book == Book(map[], {}, {}, {}, {}) && this.now == now
    {
      this.now, last, pending, hold, queue := now, None, false, None, Nothing;
      book, starts := Book(map[], {}, {}, {}, {}), [];
      checks, queued, holding := 0, 0, 0;
    }

    // A check holds the app and has not begun to read.
    predicate Unread()
      reads this
    {
      hold == Some(Check(Unprepared)) || hold == Some(Check(Prepared))
    }

    // The window of the last check has closed.
    predicate WindowClosed()
      reads this
    {
      last.None? || last.value + Debounce <= now
    }

    ghost predicate Valid()
      reads this
    {
      && (pending <==> queue != Nothing)
      && (queue == Claimed ==> hold == Some(Check(Unprepared)) && holding == queued)
      && (queue.ForApp? || queue == Claimed || queue == GivenUp ==> WindowClosed())
      && Numbered() && book.Balanced(Waiting()) && Timed(starts, last, now)
    }

    // A check that waits, or holds the app unread, has not failed.
    ghost predicate Numbered()
      reads this
    {
      && (pending ==> queued < checks && queued !in book.failed)
      && (Unread() ==> holding < checks && holding !in book.failed)
      && (pending && Unread() && queue != Claimed ==> queued != holding)
      && forall n <- book.failed :: n < checks
    }

    // The checks that may yet read.
    ghost function Waiting(): set<nat>
      reads this
    {
      (if pending then {queued} else {}) + (if Unread() then {holding} else {})
    }

    // --- a push ---

    ghost method Accept(p: Push, check: nat, waiting: set<nat>)
      requires book.Balanced(waiting) && p !in book.accepted
      requires waiting <= Waiting() && check in Waiting()
      modifies `book
      ensures book == old(book).Accept(p, check) && book.Balanced(Waiting())
    {
      book.AcceptBalances(p, check, waiting, Waiting());
      book := book.Accept(p, check);
    }

    // A check starts now.
    method Mark()
      requires Timed(starts, last, now) && WindowClosed()
      modifies `last, `starts
      ensures Timed(starts, last, now) && last == Some(now) && starts == old(starts) + [now]
    {
      last, starts := Some(now), starts + [now];
    }

    // scheduleGitWebhookCheck. upgrading: an upgrade of the system is open;
    // prepares: the check can start once it has the app.
    method Schedule(p: Push, upgrading: bool, prepares: bool) returns (answer: Answer)
      requires Valid() && p !in book.accepted
      modifies this
      ensures Valid() && now == old(now) && Answered(p, answer)
      ensures answer == Held <==> upgrading
      ensures p in book.accepted ==> book.accepted[p] !in book.failed && book.accepted[p] in Waiting()
      ensures !upgrading && old(pending) ==> answer == Coalesced && queue == old(queue)
      ensures !upgrading && !old(pending) && !old(WindowClosed()) ==> answer == Coalesced && queue == InWindow
      ensures !upgrading && !old(pending) && old(WindowClosed()) ==>
                answer == if old(hold).Some? then Queued else if prepares then Checking else NotStarted
    {
      if upgrading {
        return Held;
      }
      ghost var waiting := Waiting();
      if pending {
        Accept(p, queued, waiting);
        return Coalesced;
      }
      if !WindowClosed() {
        pending, queue := true, InWindow;
        queued, checks := checks, checks + 1;
        Accept(p, queued, waiting);
        return Coalesced;
      }
      answer := StartOrQueue(p, prepares);
    }

    // What an answer does: a push is accepted, a check started, or neither.
    twostate predicate Answered(p: Push, answer: Answer)
      reads this
    {
      && (if answer == Held || answer == NotStarted then book == old(book)
          else p in book.accepted && book == old(book).Accept(p, book.accepted[p]))
      && starts == (if answer == Checking then old(starts) + [now] else old(starts))
      && hold == (if answer == Checking then Some(Check(Prepared)) else old(hold))
      && (answer in {Held, NotStarted, Checking} ==> queue == old(queue))
    }

    // At once when the app is free, once it is when it is busy.
    method StartOrQueue(p: Push, prepares: bool) returns (answer: Answer)
      requires Valid() && p !in book.accepted && !pending && WindowClosed()
      modifies this
      ensures Valid() && now == old(now) && Answered(p, answer)
      ensures answer == if old(hold).Some? then Queued else if prepares then Checking else NotStarted
      ensures answer == Queued ==> queue == ForApp(now + Patience)
      ensures p in book.accepted ==> book.accepted[p] !in book.failed && book.accepted[p] in Waiting()
    {
      ghost var waiting := Waiting();
      if hold.Some? {
        pending, queue := true, ForApp(now + Patience);
        queued, checks := checks, checks + 1;
        Accept(p, queued, waiting);
        return Queued;
      }
      if !prepares {
        return NotStarted;
      }
      hold := Some(Check(Prepared));
      holding, checks := checks, checks + 1;
      Mark();
      Accept(p, holding, waiting);
      answer := Checking;
    }

    // --- the queued check ---

    // waitForGitWebhookWindow, one look at the clock.
    method LookAtWindow()
      requires Valid() && queue == InWindow
      modifies `queue
      ensures Valid() && queue == if WindowClosed() then ForApp(now + Patience) else InWindow
    {
      if WindowClosed() {
        queue := ForApp(now + Patience);
      }
    }

    // beginWaiting, one attempt.
    method TryClaim()
      requires Valid() && queue.ForApp?
      modifies `queue, `hold, `holding
      ensures Valid()
      ensures old(hold).None? ==> queue == Claimed && hold == Some(Check(Unprepared))
      ensures old(hold).Some? ==>
          hold == old(hold) && queue == if now > old(queue).deadline then GivenUp else old(queue)
    {
      if hold.None? {
        hold, queue, holding := Some(Check(Unprepared)), Claimed, queued;
      } else if now > queue.deadline {
        queue := GivenUp;
      }
    }

    // It has the app, or gave up: it is queued no more. Giving up drops what no
    // other check is about to read for.
    method LeaveQueue()
      requires Valid() && (queue == Claimed || queue == GivenUp)
      modifies `pending, `queue, `last, `starts, `book
      ensures Valid() && !pending
      ensures starts == if old(queue) == Claimed then old(starts) + [now] else old(starts)
      ensures book == if old(queue) == GivenUp then old(book).Fail(queued, !Unread()) else old(book)
    {
      ghost var waiting := Waiting();
      pending := false;
      if queue == Claimed {
        Mark();
      } else {
        book.FailBalances(queued, !Unread(), waiting, Waiting());
        book := book.Fail(queued, !Unread());
      }
      queue := Nothing;
    }

    // --- what holds the app ---

    // prepareGitCheck and the check: it begins to read, or, once queued, cannot
    // start; that drops what no queued check is left to read for.
    method BeginReading(prepared: bool) returns (began: bool)
      requires Valid() && Unread() && queue != Claimed
      modifies `hold, `book
      ensures Valid() && (began <==> prepared || old(hold) == Some(Check(Prepared)))
      ensures began ==> book == old(book).Read() && hold == Some(Check(Reading))
      ensures !began ==> book == old(book).Fail(holding, !pending) && hold == None
    {
      ghost var waiting := Waiting();
      began := prepared || hold == Some(Check(Prepared));
      hold := if began then Some(Check(Reading)) else None;
      if began {
        book.ReadBalances(waiting, Waiting());
        book := book.Read();
      } else {
        book.FailBalances(holding, !pending, waiting, Waiting());
        book := book.Fail(holding, !pending);
      }
    }

    // The check hands over to the deployment it starts, or lets the app go.
    method EndReading(deploys: bool)
      requires Valid() && hold == Some(Check(Reading))
      modifies `hold
      ensures Valid() && hold == if deploys then Some(Operation) else None
    {
      hold := if deploys then Some(Operation) else None;
    }

    // Begin, for any other operation: one at a time.
    method BeginOperation() returns (ok: bool)
      requires Valid()
      modifies `hold
      ensures Valid() && ok == old(hold).None?
      ensures hold == if ok then Some(Operation) else old(hold)
    {
      ok := hold.None?;
      if ok {
        hold := Some(Operation);
      }
    }

    method EndOperation()
      requires Valid() && hold == Some(Operation)
      modifies `hold
      ensures Valid() && hold == None
    {
      hold := None;
    }

    method Pass(time: nat)
      requires Valid()
      modifies `now
      ensures Valid() && now == old(now) + time
    {
      now := now + time;
    }
  }

  datatype Step =
    | Pushed(upgrading: bool, prepares: bool)
    | QueueTurn                // the queued check goes on
    | HolderTurn(well: bool)   // what holds the app goes on
    | Begun                    // another operation
    | Passed(time: nat)

  method TakeStep(a: App, s: Step, p: Push)
    requires a.Valid() && p !in a.book.accepted
    modifies a
    ensures a.Valid() && old(a.book.accepted).Keys <= a.book.accepted.Keys <= old(a.book.accepted).Keys + {p}
    ensures forall q <- old(a.book.accepted) :: a.book.accepted[q] == old(a.book.accepted)[q]
    ensures old(a.book.failed) <= a.book.failed && old(a.book.seen) <= a.book.seen
  {
    match s {
      case Pushed(upgrading, prepares) => var answer := a.Schedule(p, upgrading, prepares);
      case QueueTurn =>
        if a.queue == InWindow {
          a.LookAtWindow();
        } else if a.queue.ForApp? {
          a.TryClaim();
        } else if a.queue != Nothing {
          a.LeaveQueue();
        }
      case HolderTurn(well) =>
        if a.hold == Some(Operation) {
          a.EndOperation();
        } else if a.hold == Some(Check(Reading)) {
          a.EndReading(well);
        } else if a.Unread() && a.queue != Claimed {
          var began := a.BeginReading(well);
        }
      case Begun => var ok := a.BeginOperation();
      case Passed(time) => a.Pass(time);
    }
  }

  // Over any interleaving: checks started by webhooks are a window apart, and
  // with nothing left running or queued, every push accepted was followed by the
  // beginning of a read, unless the check it joined gave up waiting or could not
  // start, which it had not when the push was accepted.
  method Run(steps: seq<Step>) returns (a: App)
    ensures fresh(a) && a.Valid() && Spaced(a.starts)
    ensures a.hold.None? && a.queue == Nothing ==>
              forall p <- a.book.accepted :: p in a.book.seen || a.book.accepted[p] in a.book.failed
  {
    a := new App(0);
    for i := 0 to |steps|
      invariant fresh(a) && a.Valid() && forall p <- a.book.accepted :: p < i
    {
      TakeStep(a, steps[i], i);
    }
    if a.hold.None? && a.queue == Nothing {
      a.book.AtRest();
    }
  }
}
