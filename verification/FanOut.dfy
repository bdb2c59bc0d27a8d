/**
 * The three fan-outs to web clients. Each keeps one bounded queue per client; the statements compare what a client
 * was and will be given with the log of everything published. Clients are numbered in the order they subscribed; a
 * client leaves the list when a later subscription finds it closed.
 */
module FanOut {
  import opened Prelude

  /** A queue bound of zero means no bound. */
  predicate Full<T>(queue: seq<T>, max: nat) { 0 < max <= |queue| }

  // ---- decodes: strictly ordered, an overflow closes the client -----------------

  /** `delivered` is what the client took; it joined when `joined` batches were out and was given those from `start`. */
  datatype Reader<T> = Reader(
    queue: seq<T>, closed: bool, listed: bool, delivered: seq<T>, start: nat, joined: nat, replay: bool)

  datatype Hub<T> = Hub(max: nat, history: nat, batches: seq<T>, readers: seq<Reader<T>>, log: seq<T>)

  datatype DecodeAction<T> = Join(replay: bool) | Send(batch: T) | Receive(client: nat) | Leave(client: nat)

  function Offered<T>(r: Reader<T>, batch: T, max: nat): Reader<T> {
    if r.closed then r
    else if Full(r.queue, max) then r.(closed := true)
    else r.(queue := r.queue + [batch])
  }

  function OfferedAll<T>(r: Reader<T>, batches: seq<T>, max: nat): Reader<T> {
    if batches == [] then r else Offered(OfferedAll(r, batches[..|batches| - 1], max), batches[|batches| - 1], max)
  }

  /** The last `n` elements; all of them when `n` is zero. */
  function LastOf<T>(s: seq<T>, n: nat): seq<T> {
    if n == 0 || |s| <= n then s else s[|s| - n..]
  }

  /** The elements left after deleting the oldest beyond `n`. */
  function Trimmed<T>(s: seq<T>, n: nat): seq<T> { s[Max(0, |s| - n)..] }

  function NewReader<T>(h: Hub<T>, replay: bool): Reader<T> {
    var history := if replay then LastOf(h.batches, h.history) else [];
    var start := Max(0, |h.log| - |history|);
    OfferedAll(Reader([], false, true, [], start, |h.log|, replay), history, h.max)
  }

  function Relisted<T>(readers: seq<Reader<T>>): seq<Reader<T>> {
    seq(|readers|, i requires 0 <= i < |readers| => readers[i].(listed := readers[i].listed && !readers[i].closed))
  }

  function SentTo<T>(readers: seq<Reader<T>>, batch: T, max: nat): seq<Reader<T>> {
    seq(|readers|, i requires 0 <= i < |readers| =>
      if readers[i].listed then Offered(readers[i], batch, max) else readers[i])
  }

  function Received<T>(r: Reader<T>): Reader<T> {
    if r.queue == [] then r else r.(queue := r.queue[1..], delivered := r.delivered + [r.queue[0]])
  }

  function DecodeStep<T>(h: Hub<T>, x: DecodeAction<T>): Hub<T> {
    match x
    case Join(replay) => h.(readers := Relisted(h.readers) + [NewReader(h, replay)])
    case Send(batch) =>
      h.(batches := Trimmed(h.batches + [batch], h.history), readers := SentTo(h.readers, batch, h.max),
         log := h.log + [batch])
    case Receive(c) => if c < |h.readers| then h.(readers := h.readers[c := Received(h.readers[c])]) else h
    case Leave(c) => if c < |h.readers| then h.(readers := h.readers[c := h.readers[c].(closed := true)]) else h
  }

  function DecodeRun<T>(max: nat, history: nat, xs: seq<DecodeAction<T>>): Hub<T> {
    if xs == [] then Hub(max, history, [], [], [])
    else DecodeStep(DecodeRun(max, history, xs[..|xs| - 1]), xs[|xs| - 1])
  }

  /**
   * Delivered and queued together are a gap-free slice of the log, beginning with the oldest batch of the history when
   * the client joined if it asked for a replay and with the next batch if not, and reaching the newest one as long as
   * the client is open.
   */
  predicate SliceOf<T(==)>(r: Reader<T>, log: seq<T>, history: nat) {
    var given := r.delivered + r.queue;
    && r.start + |given| <= |log| && given == log[r.start..r.start + |given|]
    && r.joined <= |log| && r.start == (if r.replay then Max(0, r.joined - history) else r.joined)
    && (!r.closed ==> r.listed && r.start + |given| == |log|)
  }

  ghost predicate Ordered<T>(h: Hub<T>) {
    && h.batches == Trimmed(h.log, h.history)
    && forall i | 0 <= i < |h.readers| :: SliceOf(h.readers[i], h.log, h.history)
  }

  lemma OfferExtendsSlice<T>(r: Reader<T>, log: seq<T>, batch: T, max: nat, history: nat)
    requires SliceOf(r, log, history)
    ensures SliceOf(if r.listed then Offered(r, batch, max) else r, log + [batch], history)
  {
    var given := r.delivered + r.queue;
    assert r.delivered + (r.queue + [batch]) == given + [batch];
    assert (log + [batch])[r.start..r.start + |given|] == log[r.start..r.start + |given|];
  }

  /** Replaying the first `k` batches of the history, read from the log. */
  lemma {:induction false} ReplayIsSlice<T>(log: seq<T>, start: nat, k: nat, max: nat, replay: bool)
    requires start + k <= |log|
    ensures var r := OfferedAll(Reader([], false, true, [], start, |log|, replay), log[start..start + k], max);
            && r.delivered == [] && r.start == start && r.joined == |log| && r.replay == replay && r.listed
            && |r.queue| <= k && r.queue == log[start..start + |r.queue|]
            && (!r.closed ==> |r.queue| == k)
  {
    if k > 0 {
      ReplayIsSlice(log, start, k - 1, max, replay);
      var batches := log[start..start + k];
      assert batches[..k - 1] == log[start..start + k - 1];
    } else {
      assert log[start..start + 0] == [];
    }
  }

  lemma JoinKeepsOrdered<T>(h: Hub<T>, replay: bool)
    requires Ordered(h)
    ensures Ordered(DecodeStep(h, Join(replay)))
  {
    JoinedIsSlice(h, replay);
    var v := DecodeStep(h, Join(replay));
    forall i | 0 <= i < |v.readers| ensures SliceOf(v.readers[i], v.log, v.history) {
      if i < |h.readers| {
        assert SliceOf(h.readers[i], h.log, h.history);
      }
    }
  }

  lemma JoinedIsSlice<T>(h: Hub<T>, replay: bool)
    requires h.batches == Trimmed(h.log, h.history)
    ensures SliceOf(NewReader(h, replay), h.log, h.history)
  {
    var k := if replay then |h.batches| else 0;
    var start := |h.log| - k;
    assert LastOf(h.batches, h.history) == h.batches;
    assert (if replay then h.batches else []) == h.log[start..start + k];
    ReplayIsSlice(h.log, start, k, h.max, replay);
    var r := NewReader(h, replay);
    assert [] + r.queue == r.queue;
  }

  lemma SendKeepsOrdered<T>(h: Hub<T>, batch: T)
    requires Ordered(h)
    ensures Ordered(DecodeStep(h, Send(batch)))
  {
    var v := DecodeStep(h, Send(batch));
    assert v.batches == Trimmed(v.log, h.history);
    forall i | 0 <= i < |v.readers| ensures SliceOf(v.readers[i], v.log, v.history) {
      OfferExtendsSlice(h.readers[i], h.log, batch, h.max, h.history);
    }
  }

  lemma DecodeStepKeepsOrdered<T>(h: Hub<T>, x: DecodeAction<T>)
    requires Ordered(h)
    ensures Ordered(DecodeStep(h, x))
  {
    match x
    case Join(replay) => JoinKeepsOrdered(h, replay);
    case Send(batch) => SendKeepsOrdered(h, batch);
    case Receive(c) => if c < |h.readers| { ReceivedIsSlice(h.readers[c], h.log, h.history); }
    case Leave(c) => if c < |h.readers| { assert SliceOf(h.readers[c].(closed := true), h.log, h.history); }
  }

  lemma ReceivedIsSlice<T>(r: Reader<T>, log: seq<T>, history: nat)
    requires SliceOf(r, log, history)
    ensures SliceOf(Received(r), log, history)
  {
    if r.queue != [] {
      assert r.delivered + [r.queue[0]] + r.queue[1..] == r.delivered + r.queue;
    }
  }

  /** Whatever clients join, read slowly, overflow or leave. */
  lemma {:induction false} DecodesStayOrdered<T>(max: nat, history: nat, xs: seq<DecodeAction<T>>)
    ensures Ordered(DecodeRun(max, history, xs))
  {
    if xs != [] {
      DecodesStayOrdered(max, history, xs[..|xs| - 1]);
      DecodeStepKeepsOrdered(DecodeRun(max, history, xs[..|xs| - 1]), xs[|xs| - 1]);
    }
  }

  /** What a client has been given stays given: closing it, for whatever reason, leaves its queue to be read. */
  lemma NothingQueuedIsLost<T>(h: Hub<T>, x: DecodeAction<T>, i: nat)
    requires i < |h.readers|
    ensures var v := DecodeStep(h, x);
            && i < |v.readers|
            && h.readers[i].delivered + h.readers[i].queue <= v.readers[i].delivered + v.readers[i].queue
  {
    var r := h.readers[i];
    match x
    case Send(batch) => assert r.delivered + (r.queue + [batch]) == r.delivered + r.queue + [batch];
    case Receive(c) =>
      if r.queue != [] {
        assert r.delivered + [r.queue[0]] + r.queue[1..] == r.delivered + r.queue;
      }
    case _ =>
  }

  lemma {:induction false} ReplayStaysBounded<T>(r: Reader<T>, batches: seq<T>, max: nat)
    requires |r.queue| <= max && 0 < max
    ensures |OfferedAll(r, batches, max).queue| <= max
  {
    if batches != [] {
      ReplayStaysBounded(r, batches[..|batches| - 1], max);
    }
  }

  lemma NewReaderIsBounded<T>(h: Hub<T>, replay: bool)
    requires 0 < h.max
    ensures |NewReader(h, replay).queue| <= h.max
  {
    var history := if replay then LastOf(h.batches, h.history) else [];
    var start := Max(0, |h.log| - |history|);
    ReplayStaysBounded(Reader([], false, true, [], start, |h.log|, replay), history, h.max);
  }

  ghost predicate QueuesFit<T>(h: Hub<T>) { forall i | 0 <= i < |h.readers| :: |h.readers[i].queue| <= h.max }

  lemma StepKeepsQueuesFit<T>(h: Hub<T>, x: DecodeAction<T>)
    requires 0 < h.max && QueuesFit(h)
    ensures QueuesFit(DecodeStep(h, x)) && DecodeStep(h, x).max == h.max
  {
    match x
    case Join(replay) => NewReaderIsBounded(h, replay);
    case _ =>
  }

  /** A bounded queue never holds more than its bound. */
  lemma {:induction false} QueuesStayBounded<T>(max: nat, history: nat, xs: seq<DecodeAction<T>>)
    requires 0 < max
    ensures var h := DecodeRun(max, history, xs); h.max == max && QueuesFit(h)
  {
    if xs != [] {
      QueuesStayBounded(max, history, xs[..|xs| - 1]);
      StepKeepsQueuesFit(DecodeRun(max, history, xs[..|xs| - 1]), xs[|xs| - 1]);
    }
  }

  /** A new subscription clears the list of closed clients, and of no other. */
  lemma JoinForgetsExactlyClosed<T>(h: Hub<T>, replay: bool, i: nat)
    requires i < |h.readers|
    ensures DecodeStep(h, Join(replay)).readers[i].listed <==> h.readers[i].listed && !h.readers[i].closed
  {
  }

  // ---- waterfall lines: a full queue loses its oldest line -----------------------

  /** `taken` lists the log positions the client took; it was offered everything from `start` on. */
  datatype Viewer<T> = Viewer(
    queue: seq<T>, dropped: nat, received: nat, closed: bool, listed: bool, taken: seq<int>, start: nat)

  datatype Fan<T> = Fan(max: nat, published: nat, retired: nat, viewers: seq<Viewer<T>>, log: seq<T>)

  datatype LineAction<T> = Watch | Show(line: T) | Take(client: nat) | Unwatch(client: nat)

  function Squeezed<T>(v: Viewer<T>, line: T, max: nat): Viewer<T>
    requires 0 < max
  {
    if v.closed then v
    else if |v.queue| >= max then
      v.(queue := v.queue[1..] + [line], dropped := v.dropped + 1, received := v.received + 1)
    else v.(queue := v.queue + [line], received := v.received + 1)
  }

  function Pruned<T>(viewers: seq<Viewer<T>>): seq<Viewer<T>> {
    seq(|viewers|, i requires 0 <= i < |viewers| => viewers[i].(listed := viewers[i].listed && !viewers[i].closed))
  }

  function ShownTo<T>(viewers: seq<Viewer<T>>, line: T, max: nat): seq<Viewer<T>>
    requires 0 < max
  {
    seq(|viewers|, i requires 0 <= i < |viewers| =>
      if viewers[i].listed then Squeezed(viewers[i], line, max) else viewers[i])
  }

  /** The position in the log of the oldest queued line. */
  function Oldest<T>(v: Viewer<T>): int { v.start + v.received - |v.queue| }

  function TookOne<T>(v: Viewer<T>): Viewer<T> {
    if v.queue == [] then v else v.(queue := v.queue[1..], taken := v.taken + [Oldest(v)])
  }

  /** Lines dropped for the listed clients: all of them, or those already closed. */
  function DroppedFor<T>(viewers: seq<Viewer<T>>, closedOnly: bool): nat {
    if viewers == [] then 0
    else
      var v := viewers[|viewers| - 1];
      DroppedFor(viewers[..|viewers| - 1], closedOnly)
      + (if v.listed && (closedOnly ==> v.closed) then v.dropped else 0)
  }

  /** What the health report shows. */
  function TotalDropped<T>(f: Fan<T>): nat { f.retired + DroppedFor(f.viewers, false) }

  function LineStep<T>(f: Fan<T>, x: LineAction<T>): Fan<T>
    requires 0 < f.max
  {
    match x
    case Watch =>
      f.(retired := f.retired + DroppedFor(f.viewers, true),
         viewers := Pruned(f.viewers) + [Viewer([], 0, 0, false, true, [], |f.log|)])
    case Show(line) =>
      f.(published := f.published + 1, viewers := ShownTo(f.viewers, line, f.max), log := f.log + [line])
    case Take(c) => if c < |f.viewers| then f.(viewers := f.viewers[c := TookOne(f.viewers[c])]) else f
    case Unwatch(c) => if c < |f.viewers| then f.(viewers := f.viewers[c := f.viewers[c].(closed := true)]) else f
  }

  function LineRun<T>(max: nat, xs: seq<LineAction<T>>): (f: Fan<T>)
    requires 0 < max
    ensures f.max == max
  {
    if xs == [] then Fan(max, 0, 0, [], []) else LineStep(LineRun(max, xs[..|xs| - 1]), xs[|xs| - 1])
  }

  predicate Ascending(s: seq<int>) { forall i, j | 0 <= i < j < |s| :: s[i] < s[j] }

  /**
   * The queue is the newest contiguous run of what was offered; every line offered was taken, is queued or was
   * dropped; lines are taken in order, each once; an open client has been offered everything.
   */
  predicate NewestRun<T(==)>(v: Viewer<T>, log: seq<T>, max: nat) {
    var end := v.start + v.received;
    && end <= |log| && |v.queue| <= max && |v.queue| <= v.received
    && v.queue == log[end - |v.queue|..end]
    && v.received == |v.taken| + |v.queue| + v.dropped
    && Ascending(v.taken)
    && (v.taken != [] ==> v.start <= v.taken[0] && v.taken[|v.taken| - 1] < Oldest(v))
    && (!v.closed ==> v.listed && end == |log|)
  }

  /** The lines dropped for every client there ever was. */
  function DroppedEver<T>(viewers: seq<Viewer<T>>): nat {
    if viewers == [] then 0 else DroppedEver(viewers[..|viewers| - 1]) + viewers[|viewers| - 1].dropped
  }

  ghost predicate Conserved<T>(f: Fan<T>) {
    && 0 < f.max && f.published == |f.log|
    && (forall i | 0 <= i < |f.viewers| :: NewestRun(f.viewers[i], f.log, f.max))
    && TotalDropped(f) == DroppedEver(f.viewers)
  }

  lemma SqueezeKeepsRun<T>(v: Viewer<T>, log: seq<T>, line: T, max: nat)
    requires 0 < max && NewestRun(v, log, max)
    ensures NewestRun(if v.listed then Squeezed(v, line, max) else v, log + [line], max)
  {
    if v.closed || !v.listed {
      var end := v.start + v.received;
      assert (log + [line])[end - |v.queue|..end] == log[end - |v.queue|..end];
    } else {
      OfferKeepsRun(v, log, line, max);
    }
  }

  lemma OfferKeepsRun<T>(v: Viewer<T>, log: seq<T>, line: T, max: nat)
    requires 0 < max && NewestRun(v, log, max) && !v.closed
    ensures NewestRun(Squeezed(v, line, max), log + [line], max)
  {
    var from := |log| - |v.queue|;
    assert (log + [line])[from..] == v.queue + [line];
    if |v.queue| >= max {
      assert (log + [line])[from + 1..] == v.queue[1..] + [line];
    }
    assert (log + [line])[from..|log| + 1] == (log + [line])[from..];
    assert from < |log| ==> (log + [line])[from + 1..|log| + 1] == (log + [line])[from + 1..];
  }

  lemma TakeKeepsRun<T>(v: Viewer<T>, log: seq<T>, max: nat)
    requires NewestRun(v, log, max)
    ensures NewestRun(TookOne(v), log, max)
    ensures v.queue != [] ==> TookOne(v).taken == v.taken + [Oldest(v)] && log[Oldest(v)] == v.queue[0]
  {
  }

  lemma {:induction false} PruningCounts<T>(viewers: seq<Viewer<T>>)
    ensures DroppedFor(Pruned(viewers), false) + DroppedFor(viewers, true) == DroppedFor(viewers, false)
    ensures DroppedEver(Pruned(viewers)) == DroppedEver(viewers)
  {
    if viewers != [] {
      PruningCounts(viewers[..|viewers| - 1]);
      assert Pruned(viewers)[..|viewers| - 1] == Pruned(viewers[..|viewers| - 1]);
    }
  }

  /** Unlisted clients are closed, so a line adds as much to the listed clients' drops as to everyone's. */
  lemma {:induction false} ShowingCounts<T>(viewers: seq<Viewer<T>>, line: T, max: nat)
    requires 0 < max
    ensures DroppedFor(ShownTo(viewers, line, max), false) - DroppedFor(viewers, false)
         == DroppedEver(ShownTo(viewers, line, max)) - DroppedEver(viewers) >= 0
  {
    if viewers != [] {
      ShowingCounts(viewers[..|viewers| - 1], line, max);
      assert ShownTo(viewers, line, max)[..|viewers| - 1] == ShownTo(viewers[..|viewers| - 1], line, max);
    }
  }

  lemma {:induction false} ReplacingCounts<T>(viewers: seq<Viewer<T>>, c: nat, v: Viewer<T>)
    requires c < |viewers| && v.dropped == viewers[c].dropped && v.listed == viewers[c].listed
    ensures DroppedFor(viewers[c := v], false) == DroppedFor(viewers, false)
    ensures DroppedEver(viewers[c := v]) == DroppedEver(viewers)
  {
    var n := |viewers| - 1;
    if c < n {
      ReplacingCounts(viewers[..n], c, v);
      assert viewers[c := v][..n] == viewers[..n][c := v];
    } else {
      assert viewers[c := v][..n] == viewers[..n];
    }
  }

  lemma WatchKeepsConserved<T>(f: Fan<T>)
    requires Conserved(f)
    ensures Conserved(LineStep(f, Watch)) && TotalDropped(LineStep(f, Watch)) == TotalDropped(f)
  {
    var v := LineStep(f, Watch);
    var pruned := Pruned(f.viewers);
    PruningCounts(f.viewers);
    assert v.viewers[..|pruned|] == pruned;
    forall i | 0 <= i < |v.viewers| ensures NewestRun(v.viewers[i], v.log, v.max) {
      if i < |pruned| {
        assert NewestRun(f.viewers[i], f.log, f.max);
      }
    }
  }

  lemma ShowKeepsConserved<T>(f: Fan<T>, line: T)
    requires Conserved(f)
    ensures Conserved(LineStep(f, Show(line))) && TotalDropped(LineStep(f, Show(line))) >= TotalDropped(f)
  {
    var v := LineStep(f, Show(line));
    ShowingCounts(f.viewers, line, f.max);
    forall i | 0 <= i < |v.viewers| ensures NewestRun(v.viewers[i], v.log, v.max) {
      SqueezeKeepsRun(f.viewers[i], f.log, line, f.max);
    }
  }

  lemma ReplaceKeepsConserved<T>(f: Fan<T>, c: nat, v: Viewer<T>)
    requires Conserved(f) && c < |f.viewers| && NewestRun(v, f.log, f.max)
    requires v.dropped == f.viewers[c].dropped && v.listed == f.viewers[c].listed
    ensures Conserved(f.(viewers := f.viewers[c := v]))
    ensures TotalDropped(f.(viewers := f.viewers[c := v])) == TotalDropped(f)
  {
    ReplacingCounts(f.viewers, c, v);
  }

  lemma LineStepKeepsConserved<T>(f: Fan<T>, x: LineAction<T>)
    requires Conserved(f)
    ensures Conserved(LineStep(f, x)) && TotalDropped(LineStep(f, x)) >= TotalDropped(f)
  {
    match x
    case Watch => WatchKeepsConserved(f);
    case Show(line) => ShowKeepsConserved(f, line);
    case Take(c) =>
      if c < |f.viewers| {
        TakeKeepsRun(f.viewers[c], f.log, f.max);
        ReplaceKeepsConserved(f, c, TookOne(f.viewers[c]));
      }
    case Unwatch(c) =>
      if c < |f.viewers| {
        ReplaceKeepsConserved(f, c, f.viewers[c].(closed := true));
      }
  }

  /** Conservation over any run; the reported total is every drop there ever was, and never decreases. */
  lemma {:induction false} LinesConserved<T>(max: nat, xs: seq<LineAction<T>>)
    requires 0 < max
    ensures Conserved(LineRun(max, xs))
    ensures xs != [] ==> TotalDropped(LineRun(max, xs)) >= TotalDropped(LineRun(max, xs[..|xs| - 1]))
  {
    if xs != [] {
      LinesConserved(max, xs[..|xs| - 1]);
      LineStepKeepsConserved(LineRun(max, xs[..|xs| - 1]), xs[|xs| - 1]);
    }
  }

  // ---- state snapshots: the newest wins, a client that never reads is closed -----------

  datatype Watcher<T> = Watcher(queue: seq<T>, drops: nat, closed: bool, lastTaken: Option<nat>, joined: nat)

  datatype Follower<T> = Follower(max: nat, closeAfter: nat, watcher: Watcher<T>, log: seq<T>)

  datatype StateAction<T> = Update(snapshot: T) | Get | Close

  function Refreshed<T>(w: Watcher<T>, snapshot: T, max: nat, closeAfter: nat): Watcher<T> {
    if w.closed then w
    else if !Full(w.queue, max) then w.(queue := w.queue + [snapshot])
    else if w.drops + 1 >= closeAfter then w.(queue := w.queue[1..], drops := w.drops + 1, closed := true)
    else w.(queue := w.queue[1..] + [snapshot], drops := w.drops + 1)
  }

  /** A newer snapshot costs a client at most the oldest of those waiting, even as it is closed. */
  lemma RefreshCostsOldestAtMost<T>(w: Watcher<T>, snapshot: T, max: nat, closeAfter: nat)
    ensures var v := Refreshed(w, snapshot, max, closeAfter);
            w.queue <= v.queue || (w.queue != [] && Full(w.queue, max) && w.queue[1..] <= v.queue)
  {
  }

  /** The client takes its oldest snapshot, with `published` of them out. */
  function Taken<T>(w: Watcher<T>, published: nat): Watcher<T> {
    if w.queue == [] then w
    else
      w.(queue := w.queue[1..], drops := 0,
         lastTaken := if w.closed || published < |w.queue| then w.lastTaken else Some(published - |w.queue|))
  }

  function StateStep<T>(f: Follower<T>, x: StateAction<T>): Follower<T> {
    match x
    case Update(s) => f.(watcher := Refreshed(f.watcher, s, f.max, f.closeAfter), log := f.log + [s])
    case Get => f.(watcher := Taken(f.watcher, |f.log|))
    case Close => f.(watcher := f.watcher.(closed := true))
  }

  /** One client from the moment it joins, with everything published before and after. */
  function StateRun<T>(max: nat, closeAfter: nat, before: seq<T>, xs: seq<StateAction<T>>): Follower<T> {
    if xs == [] then Follower(max, closeAfter, Watcher([], 0, false, None, |before|), before)
    else StateStep(StateRun(max, closeAfter, before, xs[..|xs| - 1]), xs[|xs| - 1])
  }

  /** An open client's queue ends at the newest snapshot; once drained, the newest is what it took last. */
  predicate UpToDate<T(==)>(f: Follower<T>) {
    var w := f.watcher;
    && w.joined <= |f.log|
    && (!w.closed ==>
      && |w.queue| <= |f.log| - w.joined
      && w.queue == f.log[|f.log| - |w.queue|..]
      && (w.queue == [] && w.joined < |f.log| ==> w.lastTaken == Some(|f.log| - 1))
      && (w.drops > 0 ==> Full(w.queue, f.max) && w.drops < f.closeAfter))
  }

  lemma StateStepKeepsUpToDate<T>(f: Follower<T>, x: StateAction<T>)
    requires UpToDate(f)
    ensures UpToDate(StateStep(f, x))
  {
    var w := f.watcher;
    if x.Update? && !w.closed {
      var log := f.log + [x.snapshot];
      assert log[|f.log| - |w.queue|..] == w.queue + [x.snapshot];
      if Full(w.queue, f.max) {
        assert log[|f.log| - |w.queue| + 1..] == w.queue[1..] + [x.snapshot];
      }
    }
  }

  lemma {:induction false} ClientsStayUpToDate<T>(max: nat, closeAfter: nat, before: seq<T>, xs: seq<StateAction<T>>)
    ensures UpToDate(StateRun(max, closeAfter, before, xs))
  {
    if xs != [] {
      ClientsStayUpToDate(max, closeAfter, before, xs[..|xs| - 1]);
      StateStepKeepsUpToDate(StateRun(max, closeAfter, before, xs[..|xs| - 1]), xs[|xs| - 1]);
    } else {
      assert before[|before|..] == [];
    }
  }

  /** A state client's queue never holds more than its bound either. */
  lemma {:induction false} SnapshotsStayBounded<T>(max: nat, closeAfter: nat, before: seq<T>, xs: seq<StateAction<T>>)
    requires 0 < max
    ensures var f := StateRun(max, closeAfter, before, xs); f.max == max && |f.watcher.queue| <= max
  {
    if xs != [] {
      SnapshotsStayBounded(max, closeAfter, before, xs[..|xs| - 1]);
    }
  }

  /** `n` snapshots in a row to a client whose queue is full: it is closed exactly when the drops reach the limit. */
  lemma {:induction false} ClosedExactlyWhenBehind<T>(w: Watcher<T>, snapshots: seq<T>, max: nat, closeAfter: nat)
    requires !w.closed && Full(w.queue, max) && |w.queue| == max && w.drops < closeAfter
    ensures var v := RefreshedAll(w, snapshots, max, closeAfter);
            && (v.closed <==> w.drops + |snapshots| >= closeAfter)
            && (!v.closed ==> v.drops == w.drops + |snapshots| && |v.queue| == max)
  {
    if snapshots != [] {
      ClosedExactlyWhenBehind(w, snapshots[..|snapshots| - 1], max, closeAfter);
    }
  }

  function RefreshedAll<T>(w: Watcher<T>, snapshots: seq<T>, max: nat, closeAfter: nat): Watcher<T> {
    if snapshots == [] then w
    else
      var before := RefreshedAll(w, snapshots[..|snapshots| - 1], max, closeAfter);
      Refreshed(before, snapshots[|snapshots| - 1], max, closeAfter)
  }
}
