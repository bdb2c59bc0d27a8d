/** The lossy waterfall fan-out and its subscriptions as objects, and the state stream's subscription. */
module SpectrumObjects {
  import opened Prelude
  import opened FanOut

  class SpectrumSubscription<T> {
    const max: nat
    var queue: seq<T>
    var dropped: nat
    var received: nat
    var closed: bool

    // Bookkeeping for the statements about whole runs; the program itself does not keep it.
    ghost var taken: seq<int>
    ghost const start: nat

    ghost function View(listed: bool): Viewer<T>
      reads this
    {
      Viewer(queue, dropped, received, closed, listed, taken, start)
    }

    constructor (max: nat, ghost start: nat)
      ensures this.max == max && View(true) == Viewer([], 0, 0, false, true, [], start)
    {
      this.max, queue, dropped, received, closed := max, [], 0, 0, false;
      taken, this.start := [], start;
    }

    /** Queue one line; a full queue loses its oldest line. */
    method Offer(line: T)
      requires 0 < max
      modifies `queue, `dropped, `received
      ensures View(true) == Squeezed(old(View(true)), line, max)
    {
      if closed {
        return;
      }
      if |queue| >= max {
        queue := queue[1..];
        dropped := dropped + 1;
      }
      queue := queue + [line];
      received := received + 1;
    }

    method Get() returns (line: Option<T>)
      modifies `queue, `taken
      ensures View(true) == TookOne(old(View(true)))
      ensures line == if old(queue) == [] then None else Some(old(queue)[0])
    {
      if queue == [] {
        return None;
      }
      line := Some(queue[0]);
      taken := taken + [start + received - |queue|];
      queue := queue[1..];
    }

    method Close()
      modifies `closed
      ensures View(true) == old(View(true)).(closed := true)
    {
      closed := true;
    }
  }

  /** The subscriptions whose flag is set, in order. */
  ghost function Listed<T>(cs: seq<SpectrumSubscription<T>>, flags: seq<bool>): seq<SpectrumSubscription<T>>
    requires |flags| == |cs|
  {
    if cs == [] then []
    else
      var n := |cs| - 1;
      Listed(cs[..n], flags[..n]) + (if flags[n] then [cs[n]] else [])
  }

  ghost function Views<T>(cs: seq<SpectrumSubscription<T>>, flags: seq<bool>): seq<Viewer<T>>
    requires |flags| == |cs|
    reads cs
  {
    seq(|cs|, i requires 0 <= i < |cs| && |flags| == |cs| reads cs => cs[i].View(flags[i]))
  }

  ghost function StillOpen<T>(cs: seq<SpectrumSubscription<T>>, flags: seq<bool>): seq<bool>
    requires |flags| == |cs|
    reads cs
  {
    seq(|cs|, i requires 0 <= i < |cs| && |flags| == |cs| reads cs => flags[i] && !cs[i].closed)
  }

  ghost function OpenOnes<T>(cs: seq<SpectrumSubscription<T>>): seq<SpectrumSubscription<T>>
    reads cs
  {
    if cs == [] then []
    else
      var last := cs[|cs| - 1];
      OpenOnes(cs[..|cs| - 1]) + (if last.closed then [] else [last])
  }

  ghost function Drops<T>(cs: seq<SpectrumSubscription<T>>, closedOnly: bool): nat
    reads cs
  {
    if cs == [] then 0
    else
      var last := cs[|cs| - 1];
      Drops(cs[..|cs| - 1], closedOnly) + (if closedOnly ==> last.closed then last.dropped else 0)
  }

  lemma KeptViews<T>(cs: seq<SpectrumSubscription<T>>, flags: seq<bool>)
    requires |flags| == |cs|
    ensures Views(cs, StillOpen(cs, flags)) == Pruned(Views(cs, flags))
  {
  }

  lemma DropsAppend<T>(before: seq<SpectrumSubscription<T>>, s: SpectrumSubscription<T>, closedOnly: bool)
    ensures Drops(before + [s], closedOnly)
         == Drops(before, closedOnly) + (if closedOnly ==> s.closed then s.dropped else 0)
  {
    assert (before + [s])[..|before|] == before;
  }

  lemma {:induction false} ListedDrops<T>(cs: seq<SpectrumSubscription<T>>, flags: seq<bool>, closedOnly: bool)
    requires |flags| == |cs|
    ensures Drops(Listed(cs, flags), closedOnly) == DroppedFor(Views(cs, flags), closedOnly)
  {
    if cs != [] {
      var n := |cs| - 1;
      ListedDrops(cs[..n], flags[..n], closedOnly);
      var vs := Views(cs, flags);
      assert vs[..n] == Views(cs[..n], flags[..n]) && vs[n] == cs[n].View(flags[n]) && |vs| == n + 1;
      var before := Listed(cs[..n], flags[..n]);
      if flags[n] {
        assert Listed(cs, flags) == before + [cs[n]];
        DropsAppend(before, cs[n], closedOnly);
      } else {
        assert Listed(cs, flags) == before + [] == before;
      }
    }
  }

  lemma {:induction false} ListedOpen<T>(cs: seq<SpectrumSubscription<T>>, flags: seq<bool>)
    requires |flags| == |cs|
    ensures OpenOnes(Listed(cs, flags)) == Listed(cs, StillOpen(cs, flags))
  {
    if cs != [] {
      var n := |cs| - 1;
      ListedOpen(cs[..n], flags[..n]);
      assert StillOpen(cs, flags)[..n] == StillOpen(cs[..n], flags[..n]);
      var before := Listed(cs[..n], flags[..n]);
      if flags[n] {
        assert (before + [cs[n]])[..|before|] == before;
      } else {
        assert before + [] == before;
      }
    }
  }

  lemma {:induction false} ListedMembers<T>(cs: seq<SpectrumSubscription<T>>, flags: seq<bool>)
    requires |flags| == |cs| && forall i, j | 0 <= i < j < |cs| :: cs[i] != cs[j]
    ensures var ls := Listed(cs, flags);
            && (forall s | s in ls :: s in cs)
            && (forall i | 0 <= i < |cs| :: flags[i] <==> cs[i] in ls)
            && (forall i, j | 0 <= i < j < |ls| :: ls[i] != ls[j])
  {
    if cs != [] {
      var n := |cs| - 1;
      ListedMembers(cs[..n], flags[..n]);
      assert cs[n] !in cs[..n];
      assert forall i | 0 <= i < n :: cs[i] == cs[..n][i] && flags[i] == flags[..n][i];
    }
  }

  class SpectrumFanout<T> {
    const max: nat
    var subscribers: seq<SpectrumSubscription<T>>
    var droppedRetired: nat
    var published: nat
    ghost var clients: seq<SpectrumSubscription<T>>
    ghost var flags: seq<bool>
    ghost var log: seq<T>

    ghost predicate Valid()
      reads this, clients
    {
      && 0 < max && |flags| == |clients|
      && (forall i, j | 0 <= i < j < |clients| :: clients[i] != clients[j])
      && subscribers == Listed(clients, flags)
      && (forall s | s in clients :: s.max == max)
    }

    ghost function View(): Fan<T>
      requires |flags| == |clients|
      reads this, clients
    {
      Fan(max, published, droppedRetired, Views(clients, flags), log)
    }

    constructor (max: nat)
      requires 0 < max
      ensures Valid() && View() == Fan(max, 0, 0, [], [])
    {
      this.max := max;
      subscribers, droppedRetired, published := [], 0, 0;
      clients, flags, log := [], [], [];
    }

    method OfferToAll(line: T)
      requires Valid()
      modifies clients
      ensures forall s | s in subscribers :: s.View(true) == Squeezed(old(s.View(true)), line, max)
      ensures forall s | s in clients && s !in subscribers :: s.View(false) == old(s.View(false))
    {
      ListedMembers(clients, flags);
      var i := 0;
      while i < |subscribers|
        invariant 0 <= i <= |subscribers|
        invariant forall j | 0 <= j < i ::
          subscribers[j].View(true) == Squeezed(old(subscribers[j].View(true)), line, max)
        invariant forall j | i <= j < |subscribers| :: subscribers[j].View(true) == old(subscribers[j].View(true))
        invariant forall s | s in clients && s !in subscribers :: s.View(false) == old(s.View(false))
      {
        assert subscribers[i] in clients;
        subscribers[i].Offer(line);
        i := i + 1;
      }
    }

    /** Offer one line to every listed client. */
    method Publish(line: T)
      requires Valid()
      modifies `published, `log, clients
      ensures Valid() && View() == LineStep(old(View()), Show(line))
    {
      ListedMembers(clients, flags);
      OfferToAll(line);
      assert Views(clients, flags) == ShownTo(old(Views(clients, flags)), line, max);
      published := published + 1;
      log := log + [line];
    }

    /** Bank the drops of the clients found closed and forget those clients. */
    method Retire()
      requires Valid()
      modifies `subscribers, `droppedRetired, `flags
      ensures Valid() && |flags| == |clients|
      ensures View() == old(View()).(retired := old(View()).retired + DroppedFor(old(View()).viewers, true),
                                     viewers := Pruned(old(View()).viewers))
    {
      var open: seq<SpectrumSubscription<T>> := [];
      var retired := 0;
      var i := 0;
      while i < |subscribers|
        invariant 0 <= i <= |subscribers|
        invariant open == OpenOnes(subscribers[..i]) && retired == Drops(subscribers[..i], true)
      {
        assert subscribers[..i + 1][..i] == subscribers[..i];
        if subscribers[i].closed {
          retired := retired + subscribers[i].dropped;
        } else {
          open := open + [subscribers[i]];
        }
        i := i + 1;
      }
      assert subscribers[..i] == subscribers;
      ListedDrops(clients, flags, true);
      ListedOpen(clients, flags);
      ghost var kept := StillOpen(clients, flags);
      KeptViews(clients, flags);
      droppedRetired := droppedRetired + retired;
      subscribers := open;
      flags := kept;
    }

    method Enlist() returns (sub: SpectrumSubscription<T>)
      requires Valid()
      modifies `subscribers, `clients, `flags
      ensures Valid() && |flags| == |clients| && fresh(sub) && clients == old(clients) + [sub]
      ensures View() == old(View()).(viewers := old(View()).viewers + [Viewer([], 0, 0, false, true, [], |log|)])
    {
      sub := new SpectrumSubscription<T>(max, |log|);
      subscribers := subscribers + [sub];
      assert (clients + [sub])[..|clients|] == clients && (flags + [true])[..|clients|] == flags;
      assert Views(clients + [sub], flags + [true]) == Views(clients, flags) + [sub.View(true)];
      clients := clients + [sub];
      flags := flags + [true];
    }

    /** Register a subscriber, retiring the closed ones. */
    method Subscribe() returns (sub: SpectrumSubscription<T>)
      requires Valid()
      modifies `subscribers, `droppedRetired, `clients, `flags
      ensures Valid() && fresh(sub) && clients == old(clients) + [sub]
      ensures View() == LineStep(old(View()), Watch)
    {
      Retire();
      sub := Enlist();
    }

    method TotalDropped() returns (total: nat)
      requires Valid()
      ensures total == FanOut.TotalDropped(View())
    {
      total := droppedRetired;
      var i := 0;
      while i < |subscribers|
        invariant 0 <= i <= |subscribers| && total == droppedRetired + Drops(subscribers[..i], false)
      {
        assert subscribers[..i + 1][..i] == subscribers[..i];
        total := total + subscribers[i].dropped;
        i := i + 1;
      }
      assert subscribers[..i] == subscribers;
      ListedDrops(clients, flags, false);
    }
  }

  class StateSubscription<T> {
    const max: nat
    const closeAfter: nat
    var queue: seq<T>
    var consecutiveDrops: nat
    var closed: bool
    ghost var lastTaken: Option<nat>
    ghost const joined: nat

    ghost function View(): Watcher<T>
      reads this
    {
      Watcher(queue, consecutiveDrops, closed, lastTaken, joined)
    }

    constructor (max: nat, closeAfter: nat, ghost joined: nat)
      ensures this.max == max && this.closeAfter == closeAfter && View() == Watcher([], 0, false, None, joined)
    {
      this.max, this.closeAfter := max, closeAfter;
      queue, consecutiveDrops, closed := [], 0, false;
      lastTaken, this.joined := None, joined;
    }

    method Offer(snapshot: T)
      modifies `queue, `consecutiveDrops, `closed
      ensures View() == Refreshed(old(View()), snapshot, max, closeAfter)
    {
      if closed {
        return;
      }
      if 0 < max && |queue| >= max {
        queue := queue[1..];
        consecutiveDrops := consecutiveDrops + 1;
        if consecutiveDrops >= closeAfter {
          closed := true;
          return;
        }
      }
      queue := queue + [snapshot];
    }

    method Get(ghost published: nat) returns (snapshot: Option<T>)
      modifies `queue, `consecutiveDrops, `lastTaken
      ensures View() == Taken(old(View()), published)
      ensures snapshot == if old(queue) == [] then None else Some(old(queue)[0])
    {
      if queue == [] {
        return None;
      }
      snapshot := Some(queue[0]);
      if !closed && published >= |queue| {
        lastTaken := Some(published - |queue|);
      }
      queue := queue[1..];
      consecutiveDrops := 0;
    }
  }
}
