// A subscriber of the log hub: publishers append to a bounded queue and drop its
// oldest message when it is full, while one drain offers its head to a reader.
// Every method but the last two is one atomic step, and any step may come
// between two others: what Valid says holds after every interleaving.
module LogHub {

  const QueueSize: nat := 10000

  // What a reader receives: the message with its number among those accepted,
  // or how many it missed.
  datatype Message<M> = Item(id: nat, body: M) | Lag(dropped: nat)

  // Where the drain is. Picked: before it looks whether something changed;
  // Sent: the reader has the message, and the queue does not know yet.
  datatype Drain<M> = Idle | Waiting | Picked(item: Message<M>) | Offering(item: Message<M>)
      | Sent(item: Message<M>) | Gone

  // How many accepted messages a reader's messages stand for.
  function Accounted<M>(got: seq<Message<M>>): nat {
    if got == [] then 0
    else Accounted(got[..|got| - 1]) + match got[|got| - 1] case Item(_, _) => 1 case Lag(n) => n
  }

  // Before it received a message, a reader had each earlier one, or a lag that
  // counted it; and the message is the one accepted.
  predicate Faithful<M(==)>(got: seq<Message<M>>, accepted: seq<M>) {
    forall k :: 0 <= k < |got| && got[k].Item? ==>
      Accounted(got[..k]) == got[k].id < |accepted| && got[k].body == accepted[got[k].id]
  }

  lemma AccountedSnoc<M>(got: seq<Message<M>>, m: Message<M>)
    ensures Accounted(got + [m]) == Accounted(got) + match m case Item(_, _) => 1 case Lag(n) => n
  {
    assert (got + [m])[..|got|] == got;
  }

  lemma FaithfulMore<M>(got: seq<Message<M>>, m: Message<M>, accepted: seq<M>)
    requires Faithful(got, accepted)
    requires m.Item? ==> Accounted(got) == m.id < |accepted| && m.body == accepted[m.id]
    ensures Faithful(got + [m], accepted)
    ensures Accounted(got + [m]) == Accounted(got) + match m case Item(_, _) => 1 case Lag(n) => n
  {
    AccountedSnoc(got, m);
    assert forall k :: 0 <= k < |got| ==> (got + [m])[..k] == got[..k];
    assert (got + [m])[..|got|] == got;
  }

  lemma {:induction false} AccountedGrows<M>(got: seq<Message<M>>, k: nat)
    requires k <= |got|
    ensures Accounted(got[..k]) <= Accounted(got)
    ensures k < |got| && got[k].Item? ==> Accounted(got[..k]) < Accounted(got)
    decreases |got|
  {
    if k < |got| {
      var front := got[..|got| - 1];
      assert front[..k] == got[..k];
      AccountedGrows(front, k);
    } else {
      assert got[..k] == got;
    }
  }

  // A reader's messages come in the order they were accepted, none twice.
  lemma ReceivedInOrder<M>(got: seq<Message<M>>, accepted: seq<M>, i: nat, j: nat)
    requires Faithful(got, accepted) && i < j < |got| && got[i].Item? && got[j].Item?
    ensures got[i].id < got[j].id
  {
    assert got[..j][..i] == got[..i];
    AccountedGrows(got[..j], i);
  }

  class Subscriber<M(==)> {
    const wants: M -> bool
    var q: seq<M>         // q[head..] is the queue
    var head: nat
    var popped: nat       // messages ever removed from the head; numbers the head
    var dropped: nat      // drops not yet reported by a lag
    var closed: bool
    var wake: bool        // something changed
    var drain: Drain<M>

    ghost var accepted: seq<M>
    ghost var got: seq<Message<M>>
    ghost var since: nat    // drops since the drain picked

    constructor (wants: M -> bool)
      ensures Valid() && this.wants == wants && accepted == [] && got == [] && drain == Idle && !closed
    {
      this.wants := wants;
      q, head, popped, dropped, closed, wake, drain := [], 0, 0, 0, false, false, Idle;
      accepted, got, since := [], [], 0;
    }

    // The queue is the accepted messages not popped, and its array stays bounded.
    ghost predicate Queued()
      reads this
    {
      && head <= |q| < 2 * QueueSize
      && |q| - head <= QueueSize
      && popped + |q| - head == |accepted|
      && q[head..] == accepted[popped..]
    }

    // A message picked: it was the head, with no drop to report, and if it was
    // dropped since, a change is pending.
    ghost predicate Held(item: Message<M>)
      reads this
    {
      match item
      case Item(id, body) =>
        && id < |accepted| && body == accepted[id]
        && popped == id + dropped
        && Accounted(got) == id
      case Lag(n) => 0 < n <= dropped && Accounted(got) + dropped == popped
    }

    // What was picked, and how many drops came since: none, or a change is pending.
    ghost predicate Picks(item: Message<M>)
      reads this
    {
      match item
      case Item(id, _) => popped == id + since
      case Lag(n) => dropped == n + since
    }

    // Delivered, reported and still to report are all that left the queue.
    ghost predicate Balanced()
      reads this
    {
      match drain
      case Picked(item) => Held(item) && Picks(item) && (since == 0 || wake)
      case Offering(item) => Held(item) && Picks(item) && (since == 0 || wake)
      case Sent(Item(id, body)) =>
        && id < |accepted| && Accounted(got) == id + 1
        && popped == id + dropped && Picks(Item(id, body))
      case Sent(Lag(n)) => n <= dropped && Accounted(got) + dropped == popped + n
      case Waiting => Accounted(got) + dropped == popped && (wake || (dropped == 0 && |q| == head))
      case _ => Accounted(got) + dropped == popped
    }

    ghost predicate Valid()
      reads this
    {
      Queued() && Faithful(got, accepted) && Balanced() && (drain == Gone ==> closed)
    }

    // Publish: never blocks; a full queue loses its oldest message.
    method Publish(m: M)
      requires Valid()
      modifies this
      ensures Valid()
      ensures got == old(got) && drain == old(drain) && closed == old(closed)
      ensures var taken := !closed && wants(m);
        var lost := if taken && |old(q)| - old(head) == QueueSize then 1 else 0;
        && accepted == (if taken then old(accepted) + [m] else old(accepted))
        && popped == old(popped) + lost && dropped == old(dropped) + lost && since == old(since) + lost
        && wake == (old(wake) || taken)
    {
      if closed || !wants(m) {
        return;
      }
      if |q| - head == QueueSize {
        Drop();
      }
      if head >= QueueSize {
        assert q[head..][0..] == q[head..];
        q, head := q[head..], 0;
      }
      Append(m);
    }

    // The oldest message goes, counted.
    method Drop()
      requires Queued() && |q| - head == QueueSize
      modifies `head, `popped, `dropped, `since
      ensures Queued() && head == old(head) + 1
      ensures popped == old(popped) + 1 && dropped == old(dropped) + 1 && since == old(since) + 1
    {
      assert q[head + 1..] == q[head..][1..] && accepted[popped + 1..] == accepted[popped..][1..];
      head, popped, dropped, since := head + 1, popped + 1, dropped + 1, since + 1;
    }

    method Append(m: M)
      requires head <= |q| && |q| + 1 < 2 * QueueSize && |q| - head < QueueSize
      requires popped + |q| - head == |accepted| && q[head..] == accepted[popped..]
      modifies `q, `accepted, `wake
      ensures Queued() && wake && accepted == old(accepted) + [m]
    {
      assert (q + [m])[head..] == q[head..] + [m];
      assert (accepted + [m])[popped..] == accepted[popped..] + [m];
      q := q + [m];
      accepted := accepted + [m];
      wake := true;
    }

    // The unsubscribe function.
    method Close()
      requires Valid()
      modifies `closed
      ensures Valid() && closed
    {
      closed := true;
    }

    // The drain picks what to offer: a lag before the head of the queue.
    method Pick()
      requires Valid() && drain == Idle
      modifies `drain, `since
      ensures Valid() && since == 0
      ensures drain == if closed then Gone
                       else if dropped > 0 then Picked(Lag(dropped))
                       else if |q| > head then Picked(Item(popped, accepted[popped]))
                       else Waiting
    {
      since := 0;
      if closed {
        drain := Gone;
      } else if dropped > 0 {
        drain := Picked(Lag(dropped));
      } else if |q| > head {
        assert q[head] == q[head..][0];
        drain := Picked(Item(popped, q[head]));
      } else {
        drain := Waiting;
      }
    }

    // Woken, it picks again.
    method Wake()
      requires Valid() && (drain == Waiting || drain.Picked? || drain.Offering?) && wake
      modifies `drain, `wake
      ensures Valid() && drain == Idle && !wake
    {
      drain, wake := Idle, false;
    }

    // No change is pending: the pick is offered.
    method Offer()
      requires Valid() && drain.Picked? && !wake
      modifies `drain
      ensures Valid() && drain == Offering(old(drain).item) && since == 0
    {
      drain := Offering(drain.item);
    }

    // A reader takes what is offered. It then has, or was told of, every
    // message before it. What it takes is the head of the queue, but where a drop
    // came while it was offered: exactly then it is stale.
    method Deliver()
      requires Valid() && drain.Offering?
      modifies `drain, `got
      ensures Valid() && got == old(got) + [old(drain).item]
      ensures old(drain).item.Item? ==> Accounted(old(got)) == old(drain).item.id
      ensures old(drain).item.Item? ==> (old(drain).item.id < popped <==> since > 0)
      ensures old(drain).item.Item? && since == 0 ==> |q| > head && q[head] == old(drain).item.body
    {
      HeadIs();
      FaithfulMore(got, drain.item, accepted);
      got := got + [drain.item];
      drain := Sent(drain.item);
    }

    lemma HeadIs()
      requires Queued()
      ensures |q| - head == |accepted| - popped
      ensures |q| > head ==> q[head] == accepted[popped]
    {
      if |q| > head {
        assert q[head..][0] == accepted[popped..][0];
      }
    }

    // Closed while nobody read.
    method Leave()
      requires Valid() && (drain == Waiting || drain.Offering?) && closed
      modifies `drain
      ensures Valid() && drain == Gone
    {
      drain := Gone;
    }

    // The queue takes note of what was received.
    method Settle()
      requires Valid() && drain.Sent?
      modifies `drain, `q, `head, `popped, `dropped
      ensures Valid() && drain == Idle
      ensures match old(drain).item
        case Lag(n) => popped == old(popped) && dropped == old(dropped) - n
        case Item(id, _) => if old(popped) == id then popped == id + 1 && dropped == old(dropped)
                            else popped == old(popped) && dropped == old(dropped) - 1
    {
      match drain {
        case Sent(Lag(n)) =>
          dropped := dropped - n;
        case Sent(Item(id, _)) =>
          if popped != id {
            dropped := dropped - 1;
          } else if |q| > head {
            assert q[head + 1..] == q[head..][1..];
            head, popped := head + 1, popped + 1;
            if head == |q| {
              q, head := [], 0;
            }
          }
      }
      drain := Idle;
    }
  }

  datatype Step<M> = Published(m: M) | Closed | Drained(woken: bool)

  // The next step of the drain that can happen; none when it is blocked.
  method DrainStep<M>(s: Subscriber<M>, woken: bool)
    requires s.Valid()
    modifies s
    ensures s.Valid() && s.accepted == old(s.accepted) && old(s.got) <= s.got
  {
    match s.drain {
      case Idle => s.Pick();
      case Waiting => if s.wake && woken { s.Wake(); } else if s.closed { s.Leave(); }
      case Picked(_) => if s.wake { s.Wake(); } else { s.Offer(); }
      case Offering(_) =>
        if s.wake && woken { s.Wake(); } else if s.closed && woken { s.Leave(); } else { s.Deliver(); }
      case Sent(_) => s.Settle();
      case Gone =>
    }
  }

  // Any interleaving of publishers, the drain and the unsubscribe: what a reader
  // got is faithful, and with what is queued or still to report it accounts for
  // every message accepted.
  method Run<M>(wants: M -> bool, steps: seq<Step<M>>) returns (s: Subscriber<M>)
    ensures fresh(s) && s.Valid() && Faithful(s.got, s.accepted)
    ensures s.drain == Idle || s.drain == Waiting ==>
              Accounted(s.got) + s.dropped + |s.q| - s.head == |s.accepted|
  {
    s := new Subscriber(wants);
    for i := 0 to |steps|
      invariant fresh(s) && s.Valid()
    {
      match steps[i] {
        case Published(m) => s.Publish(m);
        case Closed => s.Close();
        case Drained(woken) => DrainStep(s, woken);
      }
    }
  }

  method Filled(m: int) returns (s: Subscriber<int>)
    ensures fresh(s) && s.Valid() && s.drain == Idle && !s.closed && s.wake && s.wants(m) && s.got == []
    ensures s.popped == 0 && s.dropped == 0 && |s.accepted| == QueueSize && s.accepted[0] == m
  {
    s := new Subscriber((x: int) => true);
    for i := 0 to QueueSize
      invariant fresh(s) && s.Valid() && s.drain == Idle && !s.closed && s.wants(m) && s.got == []
      invariant s.popped == 0 && s.dropped == 0 && |s.accepted| == i
      invariant i > 0 ==> s.wake && s.accepted[0] == m
    {
      s.Publish(m);
    }
  }

  // Its first message offered, no change pending.
  method Offered(m: int) returns (s: Subscriber<int>)
    ensures fresh(s) && s.Valid() && s.drain == Offering(Item(0, m)) && !s.closed && s.wants(m) && s.got == []
    ensures s.popped == 0 && s.dropped == 0 && s.since == 0 && |s.accepted| == QueueSize && !s.wake
  {
    s := Filled(m);
    s.Pick();
    s.Wake();
    s.Pick();
    s.Offer();
  }

  // A message a later drop made stale can still be delivered, when the drop
  // comes while it is offered; the reader is not told of it again.
  method StaleDelivery(m: int) returns (s: Subscriber<int>)
    ensures s.Valid() && s.got == [Item(0, m)] && s.popped == 1 && s.since == 1
    ensures s.drain == Idle && s.dropped == 0
  {
    s := Offered(m);
    s.Publish(m);
    s.Deliver();
    s.Settle();
  }
}
