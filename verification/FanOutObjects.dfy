/** The broadcasters as objects. Every subscription ever made is a client; `listed` ones are served. */
module FanOutObjects {
  import opened Prelude
  import opened FanOut

  class DecodeSubscription<T> {
    const max: nat
    var queue: seq<T>
    var closed: bool

    // Bookkeeping for the statements about whole runs; the program itself does not keep it.
    ghost var listed: bool
    ghost var delivered: seq<T>
    ghost const start: nat
    ghost const joined: nat
    ghost const replay: bool

    ghost function View(): Reader<T>
      reads this
    {
      Reader(queue, closed, listed, delivered, start, joined, replay)
    }

    constructor (max: nat, ghost start: nat, ghost joined: nat, ghost replay: bool)
      ensures this.max == max && View() == Reader([], false, true, [], start, joined, replay)
    {
      this.max, queue, closed := max, [], false;
      listed, delivered := true, [];
      this.start, this.joined, this.replay := start, joined, replay;
    }

    /** Queue one batch; a client whose queue is full is closed instead of losing it. */
    method Offer(batch: T) returns (accepted: bool)
      modifies `queue, `closed
      ensures View() == Offered(old(View()), batch, max) && accepted == !closed
    {
      if closed {
        return false;
      }
      if 0 < max && |queue| >= max {
        closed := true;
        return false;
      }
      queue := queue + [batch];
      accepted := true;
    }

    /** Queue the replayed history, up to the batch that does not fit. */
    method Replay(history: seq<T>)
      modifies `queue, `closed
      ensures View() == OfferedAll(old(View()), history, max)
    {
      ghost var before := View();
      var i := 0;
      while i < |history|
        invariant 0 <= i <= |history| && View() == OfferedAll(before, history[..i], max)
      {
        assert history[..i + 1][..i] == history[..i];
        var accepted := Offer(history[i]);
        i := i + 1;
        if !accepted {
          ClosedTakesNoMore(before, history, i, max);
          return;
        }
      }
      assert history[..|history|] == history;
    }

    method Get() returns (batch: Option<T>)
      modifies `queue, `delivered
      ensures View() == Received(old(View()))
      ensures batch == if old(queue) == [] then None else Some(old(queue)[0])
    {
      if queue == [] {
        return None;
      }
      batch := Some(queue[0]);
      delivered := delivered + [queue[0]];
      queue := queue[1..];
    }

    method Close()
      modifies `closed
      ensures View() == old(View()).(closed := true)
    {
      closed := true;
    }
  }

  class DecodeBroadcaster<T> {
    const max: nat
    const history: nat
    var subscribers: seq<DecodeSubscription<T>>
    var batches: seq<T>
    ghost var clients: seq<DecodeSubscription<T>>
    ghost var log: seq<T>

    ghost predicate Valid()
      reads this, clients
    {
      && (forall i, j | 0 <= i < j < |clients| :: clients[i] != clients[j])
      && (forall i, j | 0 <= i < j < |subscribers| :: subscribers[i] != subscribers[j])
      && (forall s | s in subscribers :: s in clients)
      && (forall s | s in clients :: s.max == max && (s.listed <==> s in subscribers))
    }

    ghost function View(): Hub<T>
      reads this, clients
    {
      Hub(max, history, batches,
          seq(|clients|, i requires 0 <= i < |clients| reads this, clients => clients[i].View()), log)
    }

    constructor (max: nat, history: nat)
      ensures Valid() && View() == Hub(max, history, [], [], [])
    {
      this.max, this.history := max, history;
      subscribers, batches, clients, log := [], [], [], [];
    }

    method Publish(batch: T)
      requires Valid()
      modifies `batches, `log, subscribers
      ensures Valid() && View() == DecodeStep(old(View()), Send(batch))
    {
      batches := batches + [batch];
      batches := batches[Max(0, |batches| - history)..];
      log := log + [batch];
      var i := 0;
      while i < |subscribers|
        invariant 0 <= i <= |subscribers|
        invariant batches == Trimmed(old(batches) + [batch], history) && log == old(log) + [batch]
        invariant forall s | s in clients :: s.listed == old(s.listed)
        invariant forall j | 0 <= j < i :: subscribers[j].View() == Offered(old(subscribers[j].View()), batch, max)
        invariant forall j | i <= j < |subscribers| :: subscribers[j].View() == old(subscribers[j].View())
        invariant forall s | s in clients && s !in subscribers :: s.View() == old(s.View())
      {
        var accepted := subscribers[i].Offer(batch);
        i := i + 1;
      }
      forall s | s in clients
        ensures s.View() == if old(s.listed) then Offered(old(s.View()), batch, max) else old(s.View())
      {
        if s in subscribers {
          var j :| 0 <= j < |subscribers| && subscribers[j] == s;
        }
      }
      assert View().readers == SentTo(old(View()).readers, batch, max);
    }

    /** Forget the clients found closed. */
    method Prune()
      requires Valid()
      modifies `subscribers, clients
      ensures Valid() && clients == old(clients)
      ensures View() == old(View()).(readers := Relisted(old(View()).readers))
    {
      var open: seq<DecodeSubscription<T>> := [];
      var i := 0;
      while i < |subscribers|
        invariant 0 <= i <= |subscribers|
        invariant subscribers == old(subscribers)
        invariant forall s :: s in open <==> s in subscribers[..i] && !s.closed
        invariant forall j, k | 0 <= j < k < |open| :: open[j] != open[k]
        invariant forall s | s in clients :: s.View() == old(s.View()).(listed := s.listed)
        invariant forall s | s in clients ::
          s.listed == (old(s.listed) && !(s in subscribers[..i] && s.closed))
      {
        var s := subscribers[i];
        assert subscribers[..i + 1] == subscribers[..i] + [s];
        if !s.closed {
          open := open + [s];
        } else {
          s.listed := false;
        }
        i := i + 1;
      }
      assert subscribers[..i] == subscribers;
      subscribers := open;
    }

    method Subscribe(replay: bool) returns (sub: DecodeSubscription<T>)
      requires Valid()
      modifies `subscribers, `clients, clients
      ensures Valid() && fresh(sub) && clients == old(clients) + [sub]
      ensures View() == DecodeStep(old(View()), Join(replay))
    {
      Prune();
      sub := Enrol(replay);
    }

    method Enrol(replay: bool) returns (sub: DecodeSubscription<T>)
      requires Valid()
      modifies `subscribers, `clients
      ensures Valid() && fresh(sub) && clients == old(clients) + [sub]
      ensures View() == old(View()).(readers := old(View()).readers + [NewReader(old(View()), replay)])
    {
      ghost var pruned := View();
      var given := if replay then LastOf(batches, history) else [];
      sub := new DecodeSubscription<T>(max, Max(0, |log| - |given|), |log|, replay);
      sub.Replay(given);
      OfferedAllStaysListed(Reader([], false, true, [], sub.start, sub.joined, replay), given, max);
      assert View() == pruned;
      subscribers := subscribers + [sub];
      clients := clients + [sub];
      assert View().readers == pruned.readers + [sub.View()];
    }
  }

  lemma {:induction false} OfferedAllStaysListed<T>(r: Reader<T>, batches: seq<T>, max: nat)
    ensures OfferedAll(r, batches, max).listed == r.listed
  {
    if batches != [] {
      OfferedAllStaysListed(r, batches[..|batches| - 1], max);
    }
  }

  lemma {:induction false} ClosedTakesNoMore<T>(r: Reader<T>, batches: seq<T>, k: nat, max: nat)
    requires k <= |batches| && OfferedAll(r, batches[..k], max).closed
    ensures OfferedAll(r, batches, max) == OfferedAll(r, batches[..k], max)
  {
    if k < |batches| {
      assert batches[..|batches| - 1][..k] == batches[..k];
      ClosedTakesNoMore(r, batches[..|batches| - 1], k, max);
    } else {
      assert batches[..k] == batches;
    }
  }
}
