/** Decay by powers, and decayWindowsAtLeast: exact for any logarithm estimate. */
module HotnessDecay {

  function Pow(b: real, n: nat): real {
    if n == 0 then 1.0 else b * Pow(b, n - 1)
  }

  /** The score after n empty windows. */
  function Decayed(initial: real, decay: real, n: nat): real { initial * Pow(decay, n) }

  lemma NonNegative(x: real, y: real)
    requires 0.0 <= x && 0.0 <= y
    ensures 0.0 <= x * y
  {
  }

  lemma MulMono(x: real, a: real, b: real)
    requires 0.0 <= x && a <= b
    ensures x * a <= x * b
  {
  }

  lemma {:induction false} PowNonNegative(b: real, n: nat)
    requires 0.0 <= b
    ensures 0.0 <= Pow(b, n)
  {
    if n > 0 {
      PowNonNegative(b, n - 1);
      NonNegative(b, Pow(b, n - 1));
    }
  }

  lemma PowShrinks(b: real, n: nat)
    requires 0.0 <= b && b <= 1.0
    ensures Pow(b, n + 1) <= Pow(b, n)
  {
    PowNonNegative(b, n);
    MulMono(Pow(b, n), b, 1.0);
  }

  lemma DecayedNonNegative(initial: real, decay: real, n: nat)
    requires 0.0 <= initial && 0.0 <= decay
    ensures 0.0 <= Decayed(initial, decay, n)
  {
    PowNonNegative(decay, n);
    NonNegative(initial, Pow(decay, n));
  }

  /** Decay never increases a score. */
  lemma {:induction false} DecayedDecreases(initial: real, decay: real, m: nat, n: nat)
    requires 0.0 <= initial && 0.0 <= decay && decay <= 1.0 && m <= n
    ensures Decayed(initial, decay, n) <= Decayed(initial, decay, m)
    decreases n - m
  {
    if m < n {
      DecayedDecreases(initial, decay, m, n - 1);
      PowShrinks(decay, n - 1);
      MulMono(initial, Pow(decay, n), Pow(decay, n - 1));
    }
  }

  lemma DecayedStep(initial: real, decay: real, n: nat)
    ensures Decayed(initial, decay, n + 1) == Decayed(decay * initial, decay, n)
  {
    var p := Pow(decay, n);
    assert initial * (decay * p) == (decay * initial) * p;
  }

  lemma {:induction false} DecayedAdd(initial: real, decay: real, m: nat, n: nat)
    ensures Decayed(Decayed(initial, decay, m), decay, n) == Decayed(initial, decay, m + n)
    decreases m
  {
    if m > 0 {
      DecayedAdd(decay * initial, decay, m - 1, n);
      DecayedStep(initial, decay, m - 1);
      DecayedStep(initial, decay, m + n - 1);
    }
  }

  /** h is the number of the next `max` empty-window scores that reach the
      threshold: exactly the first h of them do. */
  ghost predicate IsCount(initial: real, decay: real, threshold: real, max: int, h: int) {
    && 0 <= h && (max <= 0 ==> h == 0) && (0 < max ==> h <= max)
    && forall j: nat {:trigger Decayed(initial, decay, j)} :: 1 <= j <= max ==>
         (j <= h <==> Decayed(initial, decay, j) >= threshold)
  }

  /** The count is determined by what it counts. */
  lemma CountIsUnique(initial: real, decay: real, threshold: real, max: int, h: nat, h': nat)
    requires IsCount(initial, decay, threshold, max, h) && IsCount(initial, decay, threshold, max, h')
    ensures h == h'
  {
    var j := if h < h' then h' else h;
    var score := Decayed(initial, decay, j);
  }

  lemma CountFrom(initial: real, decay: real, threshold: real, max: int, h: nat)
    requires 0.0 <= initial && 0.0 <= decay <= 1.0 && h <= max
    requires h == 0 || Decayed(initial, decay, h) >= threshold
    requires h == max || Decayed(initial, decay, h + 1) < threshold
    ensures IsCount(initial, decay, threshold, max, h)
  {
    forall j: nat {:trigger Decayed(initial, decay, j)} | 1 <= j <= max
      ensures j <= h <==> Decayed(initial, decay, j) >= threshold
    {
      if j <= h {
        DecayedDecreases(initial, decay, j, h);
      } else {
        DecayedDecreases(initial, decay, h + 1, j);
      }
    }
  }

  /** `guess` stands for the rounded logarithm quotient and may be any integer:
      the two correcting loops make the result exact. */
  method DecayWindowsAtLeast(initial: real, decay: real, threshold: real, maxWindows: int, guess: int) returns (h: int)
    requires 0.0 <= initial && 0.0 <= decay <= 1.0 && 0.0 < threshold
    ensures IsCount(initial, decay, threshold, maxWindows, h)
  {
    if maxWindows <= 0 || initial <= 0.0 || threshold <= 0.0 || decay <= 0.0 || initial * decay < threshold {
      if maxWindows > 0 {
        assert Pow(decay, 1) == decay * Pow(decay, 0) == decay;
        if initial <= 0.0 {
          assert Decayed(initial, decay, 1) == 0.0;
        } else if decay <= 0.0 {
          assert Decayed(initial, decay, 1) == 0.0;
        }
        CountFrom(initial, decay, threshold, maxWindows, 0);
      }
      return 0;
    }
    if decay >= 1.0 || Decayed(initial, decay, maxWindows) >= threshold {
      if decay >= 1.0 {
        PowOne(maxWindows);
      }
      CountFrom(initial, decay, threshold, maxWindows, maxWindows);
      return maxWindows;
    }
    h := guess;
    if h < 0 {
      h := 0;
    }
    if h > maxWindows {
      h := maxWindows;
    }
    while h > 0 && Decayed(initial, decay, h) < threshold
      invariant 0 <= h <= maxWindows
      decreases h
    {
      h := h - 1;
    }
    while h < maxWindows && Decayed(initial, decay, h + 1) >= threshold
      invariant 0 <= h <= maxWindows
      invariant h == 0 || Decayed(initial, decay, h) >= threshold
      decreases maxWindows - h
    {
      h := h + 1;
    }
    CountFrom(initial, decay, threshold, maxWindows, h);
  }

  lemma {:induction false} PowOne(n: nat)
    ensures Pow(1.0, n) == 1.0
  {
    if n > 0 {
      PowOne(n - 1);
    }
  }
}
