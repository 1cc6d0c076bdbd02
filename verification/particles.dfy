/**
 * Particle lifetime lists (Scene01 sparks, Scene02 trail, Scene04 aurora).
 *
 * Each update walks the list with `forEach((p, index) => ...)`, lowers the
 * visited particle's life and, when it reaches zero or below, removes it
 * with `splice(index, 1)`. Removing shifts the next particle into the
 * current index, so the forEach never visits it in that pass: it is kept
 * unchanged. `Tick` states that behaviour; `Compact` is the intended
 * mark-and-compact pass it is compared with.
 */
module Particles {

  /** A particle, reduced to its remaining life (position and colour are decoration). */
  datatype Particle = Particle(life: real)

  predicate AllAlive(ps: seq<Particle>) {
    forall i :: 0 <= i < |ps| ==> ps[i].life > 0.0
  }

  predicate AllAtMost(ps: seq<Particle>, bound: real) {
    forall i :: 0 <= i < |ps| ==> ps[i].life <= bound
  }

  /** Every particle with `amount` taken off its life. */
  function Decayed(ps: seq<Particle>, amount: real): (r: seq<Particle>)
    ensures |r| == |ps|
    ensures forall i :: 0 <= i < |ps| ==> r[i].life == ps[i].life - amount
  {
    seq(|ps|, i requires 0 <= i < |ps| => Particle(ps[i].life - amount))
  }

  /** `n` new particles of the given life appended after the existing ones. */
  function Spawn(ps: seq<Particle>, n: nat, life: real): (r: seq<Particle>)
    ensures |r| == |ps| + n
    ensures r[..|ps|] == ps
    ensures forall i :: |ps| <= i < |r| ==> r[i].life == life
  {
    ps + seq(n, _ => Particle(life))
  }

  /**
   * One update pass as the source performs it (forEach with splice).
   * The list only shrinks; positive lives stay positive; and when nothing
   * is removed, every particle has been visited and decayed.
   */
  function Tick(ps: seq<Particle>, amount: real): (r: seq<Particle>)
    ensures |r| <= |ps|
    ensures AllAlive(ps) ==> AllAlive(r)
    ensures |r| == |ps| ==> r == Decayed(ps, amount)
    decreases |ps|
  {
    if ps == [] then []
    else if ps[0].life - amount <= 0.0 then
      if |ps| == 1 then []
      else
        var rest := Tick(ps[2..], amount);
        assert AllAlive(ps) ==> ps[1].life > 0.0 && AllAlive(ps[2..]) by {
          if AllAlive(ps) {
            forall i | 0 <= i < |ps[2..]| ensures ps[2..][i].life > 0.0 {
              assert ps[2..][i] == ps[i + 2];
            }
          }
        }
        [ps[1]] + rest
    else
      var rest := Tick(ps[1..], amount);
      assert AllAlive(ps) ==> AllAlive(ps[1..]) by {
        if AllAlive(ps) {
          forall i | 0 <= i < |ps[1..]| ensures ps[1..][i].life > 0.0 {
            assert ps[1..][i] == ps[i + 1];
          }
        }
      }
      DecayedCons(ps, amount);
      [Particle(ps[0].life - amount)] + rest
  }

  /** Loop step, expiring particle with a successor: the successor is skipped. */
  lemma StepRemoved(ps: seq<Particle>, arr: seq<Particle>, i: nat, amount: real)
    requires i + 1 < |arr| && arr[i].life - amount <= 0.0
    requires Tick(ps, amount) == arr[..i] + Tick(arr[i..], amount)
    ensures var next := arr[..i] + arr[i + 1..];
      Tick(ps, amount) == next[..i + 1] + Tick(next[i + 1..], amount)
  {
    var tail := arr[i..];
    assert tail[0] == arr[i] && tail[1] == arr[i + 1];
    assert tail[2..] == arr[i + 2..];
    assert Tick(tail, amount) == [arr[i + 1]] + Tick(arr[i + 2..], amount);
    var next := arr[..i] + arr[i + 1..];
    assert next[..i + 1] == arr[..i] + [arr[i + 1]];
    assert next[i + 1..] == arr[i + 2..];
  }

  /** Loop step, expiring last particle: the list ends and so does the pass. */
  lemma StepRemovedLast(ps: seq<Particle>, arr: seq<Particle>, i: nat, amount: real)
    requires i + 1 == |arr| && arr[i].life - amount <= 0.0
    requires Tick(ps, amount) == arr[..i] + Tick(arr[i..], amount)
    ensures Tick(ps, amount) == arr[..i]
  {
    assert arr[i..] == [arr[i]];
  }

  /** Loop step, surviving particle: it is decayed in place. */
  lemma StepKept(ps: seq<Particle>, arr: seq<Particle>, i: nat, amount: real)
    requires i < |arr| && arr[i].life - amount > 0.0
    requires Tick(ps, amount) == arr[..i] + Tick(arr[i..], amount)
    ensures var next := arr[..i] + [Particle(arr[i].life - amount)] + arr[i + 1..];
      Tick(ps, amount) == next[..i + 1] + Tick(next[i + 1..], amount)
  {
    var tail := arr[i..];
    assert tail[0] == arr[i];
    assert tail[1..] == arr[i + 1..];
    var p := Particle(arr[i].life - amount);
    assert Tick(tail, amount) == [p] + Tick(arr[i + 1..], amount);
    var next := arr[..i] + [p] + arr[i + 1..];
    assert next[..i + 1] == arr[..i] + [p];
    assert next[i + 1..] == arr[i + 1..];
  }

  /**
   * The index-driven loop of the source, step for step: visit index i,
   * decay, and on expiry splice it out and still move on to i + 1.
   */
  method ForEachSplice(ps: seq<Particle>, amount: real) returns (arr: seq<Particle>)
    ensures arr == Tick(ps, amount)
  {
    arr := ps;
    var i := 0;
    while i < |arr|
      invariant 0 <= i <= |arr| + 1
      invariant i <= |arr| ==> Tick(ps, amount) == arr[..i] + Tick(arr[i..], amount)
      invariant i == |arr| + 1 ==> Tick(ps, amount) == arr
      decreases |arr| + 1 - i
    {
      var life := arr[i].life - amount;
      if life <= 0.0 {
        if i + 1 < |arr| {
          StepRemoved(ps, arr, i, amount);
        } else {
          StepRemovedLast(ps, arr, i, amount);
        }
        arr := arr[..i] + arr[i + 1..];
      } else {
        StepKept(ps, arr, i, amount);
        arr := arr[..i] + [Particle(life)] + arr[i + 1..];
      }
      i := i + 1;
    }
  }

  /** Mark-and-compact reference: decay every particle, keep those still alive. */
  function Compact(ps: seq<Particle>, amount: real): (r: seq<Particle>)
    ensures |r| <= |ps|
    ensures AllAlive(r)
    decreases |ps|
  {
    if ps == [] then []
    else if ps[0].life - amount <= 0.0 then Compact(ps[1..], amount)
    else [Particle(ps[0].life - amount)] + Compact(ps[1..], amount)
  }

  /** When no particle expires in this pass, the source's pass and the reference agree. */
  lemma {:induction false} TickIsCompactWithoutExpiry(ps: seq<Particle>, amount: real)
    requires forall i :: 0 <= i < |ps| ==> ps[i].life - amount > 0.0
    ensures Tick(ps, amount) == Compact(ps, amount) == Decayed(ps, amount)
    decreases |ps|
  {
    if ps != [] {
      var rest := ps[1..];
      assert forall i :: 0 <= i < |rest| ==> rest[i].life - amount > 0.0 by {
        forall i | 0 <= i < |rest| ensures rest[i].life - amount > 0.0 {
          assert rest[i] == ps[i + 1];
        }
      }
      TickIsCompactWithoutExpiry(rest, amount);
      var p := Particle(ps[0].life - amount);
      assert Tick(ps, amount) == [p] + Tick(rest, amount);
      assert Compact(ps, amount) == [p] + Compact(rest, amount);
      DecayedCons(ps, amount);
    }
  }

  /** Decay of a non-empty list is decay of its head followed by decay of its tail. */
  lemma DecayedCons(ps: seq<Particle>, amount: real)
    requires ps != []
    ensures Decayed(ps, amount) == [Particle(ps[0].life - amount)] + Decayed(ps[1..], amount)
  {
    var a := Decayed(ps, amount);
    var b := [Particle(ps[0].life - amount)] + Decayed(ps[1..], amount);
    assert |a| == |b|;
    forall i | 0 <= i < |a| ensures a[i] == b[i] {
      if i > 0 {
        assert b[i] == Decayed(ps[1..], amount)[i - 1];
      }
    }
  }

  /** The particle right after an expiring one is skipped: neither decayed nor removed. */
  lemma SkipAfterRemoval()
    ensures Tick([Particle(0.01), Particle(0.01)], 0.016) == [Particle(0.01)]
    ensures Compact([Particle(0.01), Particle(0.01)], 0.016) == []
  {
  }

  /** No particle's life goes up in a pass. */
  lemma {:induction false} TickKeepsBound(ps: seq<Particle>, amount: real, bound: real)
    requires amount >= 0.0 && AllAtMost(ps, bound)
    ensures AllAtMost(Tick(ps, amount), bound)
    decreases |ps|
  {
    if ps != [] {
      if ps[0].life - amount <= 0.0 {
        if |ps| > 1 {
          TickKeepsBound(ps[2..], amount, bound);
        }
      } else {
        TickKeepsBound(ps[1..], amount, bound);
      }
    }
  }

  /** `n` consecutive update passes. */
  function Ticks(ps: seq<Particle>, amount: real, n: nat): seq<Particle>
    decreases n
  {
    if n == 0 then ps else Ticks(Tick(ps, amount), amount, n - 1)
  }

  /**
   * Every particle is eventually gone despite the skip: with lives at most
   * `bound <= k * amount`, `|ps| + k` passes empty the list, because each
   * pass either removes a particle or decays all of them.
   */
  lemma {:induction false} Drain(ps: seq<Particle>, amount: real, bound: real, k: nat, n: nat)
    requires amount > 0.0
    requires AllAlive(ps) && AllAtMost(ps, bound)
    requires bound <= k as real * amount
    requires n >= |ps| + k
    ensures Ticks(ps, amount, n) == []
    decreases n
  {
    if n > 0 {
      var next := Tick(ps, amount);
      TickKeepsBound(ps, amount, bound);
      if |next| < |ps| {
        Drain(next, amount, bound, k, n - 1);
      } else if ps == [] {
        assert next == [];
        if k > 0 {
          Drain(next, amount, bound - amount, k - 1, n - 1);
        } else {
          Drain(next, amount, bound, k, n - 1);
        }
      } else {
        assert ps[0].life > 0.0 && ps[0].life <= bound;
        assert k > 0;
        assert AllAtMost(next, bound - amount);
        Drain(next, amount, bound - amount, k - 1, n - 1);
      }
    }
  }

  /** Frame time the render loop passes to every update. */
  const FrameTime: real := 0.016

  /** Sparks and trail particles (life at most 1.0, decay one frame time) are gone 63 frames after the last removal. */
  lemma SparksExpire(ps: seq<Particle>, n: nat)
    requires AllAlive(ps) && AllAtMost(ps, 1.0)
    requires n >= |ps| + 63
    ensures Ticks(ps, FrameTime, n) == []
  {
    Drain(ps, FrameTime, 1.0, 63, n);
  }
}
