/**
 * The transmit player: one waveform at a time, written block by block. An action starts a playback, completes or
 * fails the block being written, or cancels.
 */
module Playback {
  import opened Prelude

  const MAX_TX_SAMPLES := 606720

  datatype Outcome = Written(count: nat, cancelled: bool) | DeviceLost

  /** One playback that is over: the waveform, the blocks the device took, how it ended. */
  datatype Finished = Finished(pcm: seq<real>, sent: seq<real>, outcome: Outcome)

  datatype Refusal = BadBuffer | AlreadyPlaying

  /** `sent` is what the device has taken of `pcm` in the playback under way. */
  datatype Player = Player(
    blocksize: nat, playing: bool, cancelled: bool, pcm: seq<real>, sent: seq<real>,
    finished: seq<Finished>, refused: seq<Refusal>)

  datatype Action = Play(pcm: seq<real>) | BlockWritten | BlockFailed | Cancel

  function NewPlayer(blocksize: nat): Player { Player(blocksize, false, false, [], [], [], []) }

  predicate GoodBuffer(pcm: seq<real>) { 0 < |pcm| <= MAX_TX_SAMPLES }

  function Ended(p: Player, outcome: Outcome): Player {
    p.(playing := false, finished := p.finished + [Finished(p.pcm, p.sent, outcome)])
  }

  /** The head of the block loop: no block left, or cancelled. */
  function NextBlock(p: Player): Player {
    if |p.sent| >= |p.pcm| || p.cancelled then Ended(p, Written(|p.sent|, p.cancelled)) else p
  }

  function Step(p: Player, x: Action): Player {
    match x
    case Play(pcm) =>
      if !GoodBuffer(pcm) then p.(refused := p.refused + [BadBuffer])
      else if p.playing then p.(refused := p.refused + [AlreadyPlaying])
      else NextBlock(p.(playing := true, cancelled := false, pcm := pcm, sent := []))
    case BlockWritten =>
      if !p.playing then p
      else
        var n := |p.sent|;
        NextBlock(p.(sent := p.sent + if n <= |p.pcm| then p.pcm[n..Min(n + p.blocksize, |p.pcm|)] else []))
    case BlockFailed =>
      if !p.playing then p else Ended(p, if p.cancelled then Written(|p.sent|, true) else DeviceLost)
    case Cancel => p.(cancelled := true)
  }

  function Run(p: Player, xs: seq<Action>): Player {
    if xs == [] then p else Step(Run(p, xs[..|xs| - 1]), xs[|xs| - 1])
  }

  /** The device took whole blocks from the front; all of them unless cancelled or lost; the count is what it took. */
  predicate GoodEnd(f: Finished) {
    && GoodBuffer(f.pcm) && f.sent <= f.pcm
    && (f.outcome.Written? ==> f.outcome.count == |f.sent| && (!f.outcome.cancelled ==> f.sent == f.pcm))
    && (f.outcome.DeviceLost? ==> |f.sent| < |f.pcm|)
  }

  predicate InOrder(p: Player) {
    && 0 < p.blocksize
    && (p.playing ==> GoodBuffer(p.pcm) && p.sent < p.pcm)
    && (forall i | 0 <= i < |p.finished| :: GoodEnd(p.finished[i]))
  }

  lemma StepKeepsOrder(p: Player, x: Action)
    requires InOrder(p)
    ensures InOrder(Step(p, x)) && Step(p, x).blocksize == p.blocksize
  {
    match x
    case BlockWritten => if p.playing { BlockKeepsOrder(p); }
    case BlockFailed => if p.playing { EndKeepsOrder(p, if p.cancelled then Written(|p.sent|, true) else DeviceLost); }
    case Play(pcm) => if GoodBuffer(pcm) && !p.playing { assert [] < pcm; }
    case Cancel =>
  }

  lemma EndKeepsOrder(p: Player, outcome: Outcome)
    requires 0 < p.blocksize && GoodEnd(Finished(p.pcm, p.sent, outcome))
    requires forall i | 0 <= i < |p.finished| :: GoodEnd(p.finished[i])
    ensures InOrder(Ended(p, outcome)) && Ended(p, outcome).blocksize == p.blocksize
  {
  }

  /** The block is the next stretch of the waveform; then the playback goes on or is over. */
  lemma BlockKeepsOrder(p: Player)
    requires InOrder(p) && p.playing
    ensures InOrder(Step(p, BlockWritten)) && Step(p, BlockWritten).blocksize == p.blocksize
  {
    var n, m := |p.sent|, Min(|p.sent| + p.blocksize, |p.pcm|);
    assert p.sent + p.pcm[n..m] == p.pcm[..m];
    var q := p.(sent := p.pcm[..m]);
    assert Step(p, BlockWritten) == NextBlock(q);
    if m == |p.pcm| || p.cancelled {
      EndKeepsOrder(q, Written(m, p.cancelled));
    }
  }

  /** Over any run of plays, failures and cancels the device gets each waveform in order, without repeats or holes. */
  lemma {:induction false} PlaysInOrder(blocksize: nat, xs: seq<Action>)
    requires 0 < blocksize
    ensures InOrder(Run(NewPlayer(blocksize), xs))
  {
    if xs != [] {
      PlaysInOrder(blocksize, xs[..|xs| - 1]);
      StepKeepsOrder(Run(NewPlayer(blocksize), xs[..|xs| - 1]), xs[|xs| - 1]);
    }
  }

  /** A waveform is taken up exactly when its length is accepted and nothing is playing; refused, it changes nothing. */
  lemma PlaysExactlyWhen(p: Player, pcm: seq<real>)
    requires InOrder(p)
    ensures var v := Step(p, Play(pcm));
            var taken := 0 < |pcm| <= MAX_TX_SAMPLES && !p.playing;
            && (taken ==> v.playing && !v.cancelled && v.pcm == pcm && v.sent == [] && v.refused == p.refused)
            && (!taken ==> |v.refused| == |p.refused| + 1 && v == p.(refused := v.refused))
            && v.finished == p.finished
  {
  }

  predicate Settles(x: Action) { x.BlockWritten? || x.BlockFailed? }

  /** The block under way at the cancel of `p` is still being written. */
  predicate LastBlock(p: Player, v: Player) {
    && v.playing && v.cancelled && v.sent == p.sent && v.pcm == p.pcm && v.finished == p.finished
    && v.blocksize == p.blocksize
  }

  /** The playback is over, as cancelled, with at most that block more. */
  predicate OverAsCancelled(p: Player, v: Player) {
    && !v.playing && |v.finished| == |p.finished| + 1
    && var f := v.finished[|p.finished|];
       f.outcome == Written(|f.sent|, true) && f.pcm == p.pcm && |f.sent| <= |p.sent| + p.blocksize
  }

  lemma LastBlockSettles(p: Player, v: Player, x: Action)
    requires InOrder(v) && LastBlock(p, v) && !x.Play?
    ensures if Settles(x) then OverAsCancelled(p, Step(v, x)) else LastBlock(p, Step(v, x))
  {
  }

  lemma OverStaysOver(p: Player, v: Player, x: Action)
    requires OverAsCancelled(p, v) && !x.Play?
    ensures OverAsCancelled(p, Step(v, x))
  {
  }

  /**
   * After a cancel the block under way is the last: as soon as it completes or fails the playback is over, not as a
   * device fault, with at most that block more than at the cancel.
   */
  lemma {:induction false} CancelStopsAtBlock(p: Player, xs: seq<Action>)
    requires InOrder(p) && p.playing && forall i | 0 <= i < |xs| :: !xs[i].Play?
    ensures var v := Run(Step(p, Cancel), xs);
            && InOrder(v)
            && if exists i :: 0 <= i < |xs| && Settles(xs[i]) then OverAsCancelled(p, v) else LastBlock(p, v)
  {
    StepKeepsOrder(p, Cancel);
    if xs != [] {
      var front, x := xs[..|xs| - 1], xs[|xs| - 1];
      CancelStopsAtBlock(p, front);
      var v := Run(Step(p, Cancel), front);
      StepKeepsOrder(v, x);
      assert forall i | 0 <= i < |front| :: front[i] == xs[i];
      if i :| 0 <= i < |front| && Settles(front[i]) {
        assert Settles(xs[i]);
        OverStaysOver(p, v, x);
      } else {
        LastBlockSettles(p, v, x);
      }
    }
  }

  lemma BlockTaken(p: Player, sent: seq<real>)
    requires p.playing
    requires sent == if |p.sent| > |p.pcm| then p.sent
                     else p.sent + p.pcm[|p.sent|..Min(|p.sent| + p.blocksize, |p.pcm|)]
    ensures Step(p, BlockWritten) == NextBlock(p.(sent := sent))
  {
    assert p.sent + [] == p.sent;
  }

  /** A cancel between playbacks is forgotten by the next one. */
  lemma CancelBeforePlayIsLost(p: Player, pcm: seq<real>)
    requires !p.playing && GoodBuffer(pcm)
    ensures Step(Step(p, Cancel), Play(pcm)) == Step(p, Play(pcm)) && Step(p, Play(pcm)).playing
  {
  }

  class TxPlayer {
    const blocksize: nat
    var playing: bool
    var cancelled: bool
    var pcm: seq<real>
    var sent: seq<real>
    var finished: seq<Finished>
    var refused: seq<Refusal>

    function View(): Player
      reads this
    {
      Player(blocksize, playing, cancelled, pcm, sent, finished, refused)
    }

    constructor (blocksize: nat)
      requires 0 < blocksize
      ensures View() == NewPlayer(blocksize)
    {
      this.blocksize, playing, cancelled := blocksize, false, false;
      pcm, sent, finished, refused := [], [], [], [];
    }

    method Finish(outcome: Outcome)
      modifies `playing, `finished
      ensures View() == Ended(old(View()), outcome)
    {
      playing := false;
      finished := finished + [Finished(pcm, sent, outcome)];
    }

    method Start(samples: seq<real>)
      modifies this
      ensures View() == Step(old(View()), Play(samples))
    {
      if |samples| == 0 || |samples| > MAX_TX_SAMPLES {
        refused := refused + [BadBuffer];
        return;
      }
      if playing {
        refused := refused + [AlreadyPlaying];
        return;
      }
      playing, cancelled := true, false;
      pcm, sent := samples, [];
    }

    /** The device took the block: go on, unless it was the last or a cancel came meanwhile. */
    method WriteReturned()
      modifies this
      ensures View() == Step(old(View()), BlockWritten)
    {
      if !playing {
        return;
      }
      var offset := |sent|;
      if offset <= |pcm| {
        sent := sent + pcm[offset..Min(offset + blocksize, |pcm|)];
      }
      BlockTaken(old(View()), sent);
      if |sent| >= |pcm| || cancelled {
        Finish(Written(|sent|, cancelled));
      }
    }

    method WriteFailed()
      modifies this
      ensures View() == Step(old(View()), BlockFailed)
    {
      if !playing {
        return;
      }
      Finish(if cancelled then Written(|sent|, true) else DeviceLost);
    }

    method Abort()
      modifies `cancelled
      ensures View() == Step(old(View()), Action.Cancel)
    {
      cancelled := true;
    }
  }
}
