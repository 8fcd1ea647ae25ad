/** The snapshot stream: a polling loop that sends a payload when it differs from
    the one before and a keep-alive when nothing was sent for a while. */
module Stream {
  import opened Wrappers

  datatype Frame = Snapshot(payload: string) | KeepAlive

  const HEARTBEAT := 14

  // ----- what iteration i sends, with no counters -----

  predicate Fresh(polled: seq<string>, i: nat)
    requires i < |polled|
  {
    i == 0 || polled[i] != polled[i - 1]
  }

  /** The last iteration up to `i` whose payload was new. */
  function LastChange(polled: seq<string>, i: nat): (c: nat)
    requires i < |polled|
    ensures c <= i && Fresh(polled, c)
    ensures forall j | c < j <= i :: !Fresh(polled, j)
  {
    if Fresh(polled, i) then i else LastChange(polled, i - 1)
  }

  function FrameAt(polled: seq<string>, i: nat): Option<Frame>
    requires i < |polled|
  {
    if Fresh(polled, i) then Some(Snapshot(polled[i]))
    else if (i - LastChange(polled, i)) % HEARTBEAT == 0 then Some(KeepAlive)
    else None
  }

  function Shown(f: Option<Frame>): seq<Frame> { if f.Some? then [f.value] else [] }

  /** The frames of the first `n` iterations. */
  function Emitted(polled: seq<string>, n: nat): seq<Frame>
    requires n <= |polled|
  {
    if n == 0 then [] else Emitted(polled, n - 1) + Shown(FrameAt(polled, n - 1))
  }

  /** The counter before turn `i`: turns since the last change, wrapping at a keep-alive. */
  predicate Ticking(polled: seq<string>, i: nat, ticks: nat)
    requires i <= |polled|
  {
    i > 0 ==> ticks == 1 + (i - 1 - LastChange(polled, i - 1)) % HEARTBEAT
  }

  lemma TurnSends(polled: seq<string>, i: nat, ticks: nat)
    requires i < |polled| && Ticking(polled, i, ticks)
    ensures FrameAt(polled, i)
            == if Fresh(polled, i) then Some(Snapshot(polled[i]))
               else if ticks >= HEARTBEAT then Some(KeepAlive)
               else None
    ensures Ticking(polled, i + 1, 1 + if FrameAt(polled, i).Some? then 0 else ticks)
  {
    if !Fresh(polled, i) {
      Wraps(i - 1 - LastChange(polled, i - 1));
    }
  }

  lemma Wraps(d: nat)
    ensures (d + 1) % HEARTBEAT == if d % HEARTBEAT == HEARTBEAT - 1 then 0 else d % HEARTBEAT + 1
  {
  }

  /** The loop runs once for every check that found the client connected, and
      polls the service at the end of each turn: `refreshed[i]` is what turn i got. */
  method EventStream(initial: string, refreshed: seq<string>) returns (sent: seq<Frame>)
    ensures sent == Emitted([initial] + refreshed, |refreshed|)
  {
    ghost var polled := [initial] + refreshed;
    sent := [];
    var snapshot := initial;
    var previous: Option<string> := None;
    var ticks: nat := 0;
    var turn := 0;
    while turn < |refreshed|
      invariant 0 <= turn <= |refreshed|
      invariant snapshot == polled[turn]
      invariant previous == if turn == 0 then None else Some(polled[turn - 1])
      invariant Ticking(polled, turn, ticks)
      invariant sent == Emitted(polled, turn)
    {
      hide LastChange, FrameAt, Ticking;
      TurnSends(polled, turn, ticks);
      assert Emitted(polled, turn + 1) == sent + Shown(FrameAt(polled, turn));
      var payload := snapshot;
      if Some(payload) != previous {
        sent := sent + [Snapshot(payload)];
        previous := Some(payload);
        ticks := 0;
      } else if ticks >= HEARTBEAT {
        sent := sent + [KeepAlive];
        ticks := 0;
      }
      ticks := ticks + 1;
      snapshot := refreshed[turn];
      turn := turn + 1;
    }
  }

  // ----- the snapshots are the polls with adjacent repeats removed -----

  function Snapshots(frames: seq<Frame>): seq<string> {
    if frames == [] then []
    else
      var last := frames[|frames| - 1];
      Snapshots(frames[..|frames| - 1]) + (if last.Snapshot? then [last.payload] else [])
  }

  predicate StutterFree(xs: seq<string>) { forall i | 0 < i < |xs| :: xs[i - 1] != xs[i] }

  /** `ys` repeats each element of `xs` one or more times, in order. */
  predicate Stutters(xs: seq<string>, ys: seq<string>) {
    if ys == [] then xs == []
    else
      && xs != [] && xs[|xs| - 1] == ys[|ys| - 1]
      && (Stutters(xs, ys[..|ys| - 1]) || Stutters(xs[..|xs| - 1], ys[..|ys| - 1]))
  }

  lemma {:induction false} StutteringEnds(xs: seq<string>, ys: seq<string>)
    requires Stutters(xs, ys)
    ensures xs == [] <==> ys == []
    ensures xs != [] ==> xs[|xs| - 1] == ys[|ys| - 1]
  {
  }

  /** Only one stutter-free sequence stutters to a given one. */
  lemma {:induction false} StutterFreeUnique(xs: seq<string>, zs: seq<string>, ys: seq<string>)
    requires StutterFree(xs) && StutterFree(zs) && Stutters(xs, ys) && Stutters(zs, ys)
    ensures xs == zs
    decreases |ys|
  {
    if ys != [] {
      var front := ys[..|ys| - 1];
      var xs', zs' := xs[..|xs| - 1], zs[..|zs| - 1];
      if Stutters(xs, front) && Stutters(zs, front) {
        StutterFreeUnique(xs, zs, front);
      } else if Stutters(xs', front) && Stutters(zs', front) {
        StutterFreeUnique(xs', zs', front);
        assert xs == xs' + [xs[|xs| - 1]] && zs == zs' + [zs[|zs| - 1]];
      } else if Stutters(xs, front) {
        StutterFreeUnique(xs, zs', front);
        StutteringEnds(xs, front);
      } else {
        StutterFreeUnique(xs', zs, front);
        StutteringEnds(zs, front);
      }
    }
  }

  lemma {:induction false} SnapshotsAppend(frames: seq<Frame>, f: Option<Frame>)
    ensures Snapshots(frames + Shown(f))
         == Snapshots(frames) + (if f.Some? && f.value.Snapshot? then [f.value.payload] else [])
  {
    if f.Some? {
      assert (frames + [f.value])[..|frames|] == frames;
    } else {
      assert frames + Shown(f) == frames;
    }
  }

  lemma StutterOn(shown: seq<string>, polled: seq<string>, payload: string)
    requires StutterFree(shown) && Stutters(shown, polled)
    ensures var next := if polled == [] || polled[|polled| - 1] != payload then shown + [payload] else shown;
            StutterFree(next) && Stutters(next, polled + [payload])
  {
    StutteringEnds(shown, polled);
    assert (polled + [payload])[..|polled|] == polled;
    assert (shown + [payload])[..|shown|] == shown;
  }

  /** The snapshot frames are the stutter-free sequence behind the polled payloads:
      together with StutterFreeUnique, nothing else satisfies this. */
  lemma {:induction false} SnapshotsAreThePolls(polled: seq<string>, n: nat)
    requires n <= |polled|
    ensures var shown := Snapshots(Emitted(polled, n)); StutterFree(shown) && Stutters(shown, polled[..n])
  {
    hide Stutters, StutterFree, Snapshots, LastChange;
    if n == 0 {
      NothingShown();
      assert polled[..0] == [];
    } else {
      SnapshotsAreThePolls(polled, n - 1);
      var shown, before := Snapshots(Emitted(polled, n - 1)), polled[..n - 1];
      SnapshotsAppend(Emitted(polled, n - 1), FrameAt(polled, n - 1));
      StutterOn(shown, before, polled[n - 1]);
      assert polled[..n] == before + [polled[n - 1]];
      assert shown + [] == shown;
      assert n > 1 ==> before[|before| - 1] == polled[n - 2];
      assert Snapshots(Emitted(polled, n)) == if Fresh(polled, n - 1) then shown + [polled[n - 1]] else shown;
    }
  }

  lemma NothingShown()
    ensures Snapshots([]) == [] && StutterFree([]) && Stutters([], [])
  {
  }

  // ----- timing -----

  /** Any 14 consecutive turns send something. */
  lemma NeverSilentLong(polled: seq<string>, i: nat) returns (j: nat)
    requires i + 14 <= |polled|
    ensures i <= j < i + 14 && FrameAt(polled, j).Some?
  {
    var last := i + HEARTBEAT - 1;
    var c := LastChange(polled, last);
    if c >= i {
      j := c;
    } else {
      j := last - (last - c) % HEARTBEAT;
      SameChange(polled, c, j);
    }
  }

  lemma {:induction false} SameChange(polled: seq<string>, c: nat, j: nat)
    requires c <= j < |polled| && Fresh(polled, c)
    requires forall k | c < k <= j :: !Fresh(polled, k)
    ensures LastChange(polled, j) == c
  {
  }

  /** A keep-alive is sent exactly when nothing was sent for 13 turns and the payload is unchanged. */
  lemma KeepAliveTiming(polled: seq<string>, i: nat)
    requires i < |polled|
    ensures FrameAt(polled, i) == Some(KeepAlive)
       <==> && !Fresh(polled, i)
            && i >= 14
            && (forall j | i - 14 < j < i :: FrameAt(polled, j) == None)
  {
    var c := LastChange(polled, i);
    if FrameAt(polled, i) == Some(KeepAlive) {
      forall j | i - HEARTBEAT < j < i ensures FrameAt(polled, j) == None {
        SameChange(polled, c, j);
      }
    } else if !Fresh(polled, i) && i >= HEARTBEAT {
      var d := (i - c) % HEARTBEAT;
      var j := i - d;
      SameChange(polled, c, j);
      assert FrameAt(polled, j).Some?;
    }
  }
}
