/** The worker's generator (`yaay-mt-runtime/src/rng.rs`) on 32-bit words, and what its algebra means for the
    victims and targets that `try_steal`, `spawn` and `rng_gen` compute from it. */
module Rng {

  /** A `u32` as its bits, least significant first. */
  type Word = bits: seq<bool> | |bits| == 32 witness seq(32, _ => false)

  function Xor(x: Word, y: Word): Word
  {
    seq(32, i requires 0 <= i < 32 => x[i] != y[i])
  }

  /** `x << k`: bits move up by `k`, zeros come in, and bits past the 32nd are lost. */
  function Shl(x: Word, k: nat): Word
  {
    seq(32, i requires 0 <= i < 32 => i >= k && x[i - k])
  }

  /** `x as usize`. */
  function Value(bits: seq<bool>): nat
  {
    if bits == [] then 0 else (if bits[0] then 1 else 0) + 2 * Value(bits[1..])
  }

  /** One xorshift stage. */
  function Mix(x: Word, k: nat): Word
  {
    Xor(x, Shl(x, k))
  }

  /** `next_seed`: three left-shifting stages. */
  function NextSeed(seed: Word): Word
  {
    Mix(Mix(Mix(seed, 13), 17), 5)
  }

  /** The seed after `steps` applications of `next_seed`. */
  function After(seed: Word, steps: nat): Word
  {
    if steps == 0 then seed else NextSeed(After(seed, steps - 1))
  }

  /** A bit, or 0 outside the word. */
  function BitAt(x: Word, i: int): bool
  {
    0 <= i < 32 && x[i]
  }

  /** Every bit of the next seed is the sum modulo 2 of seven bits of the seed: those whose distance from it is a sum of
      some of the shifts 5, 13 and 17, all three together being more than the word has. */
  lemma NextSeedBits(x: Word, i: nat)
    requires i < 32
    ensures NextSeed(x)[i] ==
            ((BitAt(x, i) != BitAt(x, i - 5)) !=
             ((BitAt(x, i - 13) != BitAt(x, i - 17)) != (BitAt(x, i - 18) != (BitAt(x, i - 22) != BitAt(x, i - 30)))))
  {
    assert NextSeed(x)[i] == (BitAt(Mix(Mix(x, 13), 17), i) != BitAt(Mix(Mix(x, 13), 17), i - 5));
    assert forall j :: j < 32 ==> BitAt(Mix(Mix(x, 13), 17), j) == (BitAt(Mix(x, 13), j) != BitAt(Mix(x, 13), j - 17));
    assert forall j :: j < 32 ==> BitAt(Mix(x, 13), j) == (BitAt(x, j) != BitAt(x, j - 13));
  }

  // ----- the stages commute, and squaring one doubles its shift -----

  lemma StagesCommute(x: Word, j: nat, k: nat)
    ensures Mix(Mix(x, j), k) == Mix(Mix(x, k), j)
  {
  }

  lemma SquareDoubles(x: Word, k: nat)
    ensures Mix(Mix(x, k), k) == Mix(x, 2 * k)
  {
  }

  lemma LongShiftIsIdentity(x: Word, k: nat)
    requires k >= 32
    ensures Mix(x, k) == x
  {
  }

  /** Three commuting stages square to the three stages with doubled shifts. */
  lemma SquareOfThree(x: Word, a: nat, b: nat, c: nat)
    ensures Mix(Mix(Mix(Mix(Mix(Mix(x, a), b), c), a), b), c) == Mix(Mix(Mix(x, 2 * a), 2 * b), 2 * c)
  {
    var y := Mix(x, a);
    var z := Mix(y, b);
    calc {
      Mix(Mix(Mix(Mix(z, c), a), b), c);
      { StagesCommute(z, c, a); }
      Mix(Mix(Mix(Mix(z, a), c), b), c);
      { StagesCommute(Mix(z, a), c, b); }
      Mix(Mix(Mix(Mix(z, a), b), c), c);
      { SquareDoubles(Mix(Mix(z, a), b), c); }
      Mix(Mix(Mix(z, a), b), 2 * c);
      { StagesCommute(y, b, a); }
      Mix(Mix(Mix(Mix(y, a), b), b), 2 * c);
      { SquareDoubles(Mix(y, a), b); }
      Mix(Mix(Mix(y, a), 2 * b), 2 * c);
      { SquareDoubles(x, a); }
      Mix(Mix(Mix(x, 2 * a), 2 * b), 2 * c);
    }
  }

  /** Shifts of 13, 17 and 5 become 26, 34 and 10, then 52, 68 and 20, then 104, 136 and 40: nothing is left. */
  lemma EightTimesIsIdentity(x: Word)
    ensures After(x, 8) == x
  {
    var x2 := Mix(Mix(Mix(x, 26), 34), 10);
    var x4 := Mix(Mix(Mix(x, 52), 68), 20);
    var x6 := Mix(Mix(Mix(x4, 26), 34), 10);
    assert After(x, 2) == x2 by { Double(x, 0); }
    assert After(x, 4) == x4 by { Double(x, 2); SquareOfThree(x, 26, 34, 10); }
    assert After(x, 6) == x6 by { Double(x, 4); }
    assert After(x, 8) == Mix(Mix(Mix(x4, 52), 68), 20) by { Double(x, 6); SquareOfThree(x4, 26, 34, 10); }
    SquareOfThree(x, 52, 68, 20);
    LongShiftIsIdentity(x, 104);
    LongShiftIsIdentity(x, 136);
    LongShiftIsIdentity(x, 40);
  }

  lemma Double(x: Word, i: nat)
    ensures After(x, i + 2) == Mix(Mix(Mix(After(x, i), 26), 34), 10)
  {
    assert After(x, i + 2) == NextSeed(After(x, i + 1)) == NextSeed(NextSeed(After(x, i)));
    SquareOfThree(After(x, i), 13, 17, 5);
  }

  lemma {:induction false} AfterAdds(x: Word, i: nat, j: nat)
    ensures After(x, i + j) == After(After(x, i), j)
  {
    if j > 0 {
      AfterAdds(x, i, j - 1);
    }
  }

  /** `next_seed` is a bijection: seven more applications undo it, on either side. */
  lemma NextSeedIsBijective(x: Word, y: Word)
    ensures NextSeed(After(x, 7)) == x && After(NextSeed(x), 7) == x
    ensures NextSeed(x) == NextSeed(y) <==> x == y
  {
    EightTimesIsIdentity(x);
    EightTimesIsIdentity(y);
    AfterAdds(x, 1, 7);
    AfterAdds(y, 1, 7);
    assert After(x, 1) == NextSeed(After(x, 0));
    assert After(y, 1) == NextSeed(After(y, 0));
  }

  /** Every seed of a run is one of its first eight. */
  lemma {:induction false} SeedsRepeatEveryEight(x: Word, rounds: nat, i: nat)
    ensures After(x, 8 * rounds + i) == After(x, i)
  {
    if rounds > 0 {
      var rest := 8 * (rounds - 1) + i;
      assert 8 * rounds + i == 8 + rest;
      AfterAdds(x, 8, rest);
      EightTimesIsIdentity(x);
      SeedsRepeatEveryEight(x, rounds - 1, i);
    }
  }

  /** The low five bits of the seed never change. */
  lemma {:induction false} LowFiveBitsAreFixed(x: Word, steps: nat)
    ensures After(x, steps)[..5] == x[..5]
  {
    if steps > 0 {
      LowFiveBitsAreFixed(x, steps - 1);
    }
  }

  /** The index that `spawn` (modulus `n_workers`) and `try_steal` (modulus `n_workers - 1`) compute. */
  function Target(seed: Word, modulus: nat): nat
    requires modulus != 0
  {
    Value(seed) % modulus
  }

  /** Whatever the run does, the indices it can ever compute are among the eight it computes first. */
  lemma TargetsAreAtMostEight(seed: Word, modulus: nat, steps: nat)
    requires modulus != 0
    ensures exists i: nat :: i < 8 && Target(After(seed, steps), modulus) == Target(After(seed, i), modulus)
  {
    var i := FirstWithSameSeed(seed, steps);
  }

  lemma FirstWithSameSeed(seed: Word, steps: nat) returns (i: nat)
    ensures i < 8 && After(seed, steps) == After(seed, i)
  {
    i := steps % 8;
    SeedsRepeatEveryEight(seed, steps / 8, i);
  }

  // ----- which moduli make the index constant -----

  function Pow2(k: nat): (p: nat)
    ensures p >= 1
  {
    if k == 0 then 1 else 2 * Pow2(k - 1)
  }

  /** The low `k` bits and the rest. */
  lemma {:induction false} SplitValue(x: seq<bool>, k: nat)
    requires k <= |x|
    ensures Value(x) == Value(x[..k]) + Pow2(k) * Value(x[k..])
  {
    if k > 0 {
      SplitValue(x[1..], k - 1);
      assert x[1..][..k - 1] == x[..k][1..] && x[1..][k - 1..] == x[k..];
      DoublePow2(k, Value(x[k..]));
    } else {
      assert x[0..] == x;
    }
  }

  lemma DoublePow2(k: nat, v: nat)
    requires k > 0
    ensures Pow2(k) * v == 2 * (Pow2(k - 1) * v)
  {
  }

  lemma {:induction false} ValueIsSmall(x: seq<bool>)
    ensures Value(x) < Pow2(|x|)
  {
    if x != [] {
      ValueIsSmall(x[1..]);
    }
  }

  lemma {:induction false} ValueIsInjective(x: seq<bool>, y: seq<bool>)
    requires |x| == |y| && Value(x) == Value(y)
    ensures x == y
  {
    if x != [] {
      assert x[0] == y[0];
      ValueIsInjective(x[1..], y[1..]);
      assert x == [x[0]] + x[1..] && y == [y[0]] + y[1..];
    }
  }

  lemma Remainder(x: nat, modulus: nat, q: nat, r: nat)
    requires r < modulus && x == r + modulus * q
    ensures x % modulus == r
  {
    var d := q - x / modulus;
    assert d * modulus == x % modulus - r;
    assert d > 0 ==> d * modulus >= modulus;
    assert d < 0 ==> d * modulus + modulus <= 0;
  }

  /** A power of two as modulus takes the low bits. */
  lemma TargetOfPower(x: Word, j: nat)
    requires j <= 32
    ensures Target(x, Pow2(j)) == Value(x[..j])
  {
    SplitValue(x, j);
    ValueIsSmall(x[..j]);
    Remainder(Value(x), Pow2(j), Value(x[j..]), Value(x[..j]));
  }

  /** With a modulus that divides 32 (two, three, five, nine, seventeen or thirty-three workers in `try_steal`) every
      draw of a run gives one and the same index: the thief never tries another victim. */
  lemma TargetIsConstantWhenModulusDivides32(seed: Word, modulus: nat, steps: nat)
    requires modulus != 0 && 32 % modulus == 0
    ensures Target(After(seed, steps), modulus) == Target(seed, modulus)
  {
    assert Pow2(5) == 32;
    var j := PowersDivide(32 / modulus, modulus, 5);
    LowFiveBitsAreFixed(seed, steps);
    assert After(seed, steps)[..j] == After(seed, steps)[..5][..j] && seed[..j] == seed[..5][..j];
    TargetOfPower(seed, j);
    TargetOfPower(After(seed, steps), j);
  }

  /** The word with one bit set. */
  function Bit(i: nat): Word
  {
    seq(32, k requires 0 <= k < 32 => k == i)
  }

  /** Of bit 26, `next_seed` makes bits 26 and 31. */
  lemma NextOfBit26()
    ensures NextSeed(Bit(26)) == Bit(26)[31 := true]
  {
  }

  /** Of bit 0, it makes bit 5, among others. */
  lemma NextOfBit0()
    ensures NextSeed(Bit(0))[5]
  {
  }

  lemma {:induction false} SettingABit(x: seq<bool>, i: nat)
    requires i < |x| && !x[i]
    ensures Value(x[i := true]) == Value(x) + Pow2(i)
  {
    if i > 0 {
      SettingABit(x[1..], i - 1);
      assert x[i := true][1..] == x[1..][i - 1 := true];
    } else {
      assert x[0 := true][1..] == x[1..];
    }
  }

  /** A divisor of a power of two is a power of two. */
  lemma {:induction false} PowersDivide(a: nat, m: nat, k: nat) returns (j: nat)
    requires a * m == Pow2(k)
    ensures j <= k && m == Pow2(j)
  {
    if k == 0 {
      j := 0;
    } else if m % 2 == 0 {
      assert a * m == 2 * (a * (m / 2));
      j := PowersDivide(a, m / 2, k - 1);
      j := j + 1;
    } else {
      OddTimesOdd(a, m);
      assert a * m == 2 * (a / 2 * m);
      j := PowersDivide(a / 2, m, k - 1);
    }
  }

  lemma OddTimesOdd(a: nat, m: nat)
    requires m % 2 == 1 && (a * m) % 2 == 0
    ensures a % 2 == 0
  {
    assert a * m == 2 * (a * (m / 2)) + a;
  }

  lemma EqualRemainders(x: nat, d: nat, m: nat) returns (a: nat)
    requires m != 0 && (x + d) % m == x % m
    ensures a * m == d
  {
    a := (x + d) / m - x / m;
  }

  /** An index that setting one bit of the seed does not change has a power of two as its modulus. */
  lemma ConstantMeansPower(x: Word, i: nat, m: nat) returns (j: nat)
    requires m != 0 && i < 32 && !x[i] && Target(x[i := true], m) == Target(x, m)
    ensures j <= i && m == Pow2(j)
  {
    SettingABit(x, i);
    var a := EqualRemainders(Value(x), Pow2(i), m);
    j := PowersDivide(a, m, i);
  }

  /** An index that does not change although bit 5 does has at most 32 as its modulus. */
  lemma ConstantMeansSmall(x: Word, y: Word, j: nat)
    requires j <= 31 && x[5] != y[5] && Target(x, Pow2(j)) == Target(y, Pow2(j))
    ensures j <= 5
  {
    TargetOfPower(x, j);
    TargetOfPower(y, j);
    assert j > 5 ==> x[..j][5] == x[5] && y[..j][5] == y[5];
    ValueIsInjective(x[..j], y[..j]);
  }

  lemma DivisorsOf32(j: nat)
    requires j <= 5
    ensures 32 % Pow2(j) == 0
  {
    assert Pow2(1) == 2 && Pow2(2) == 4 && Pow2(3) == 8 && Pow2(4) == 16 && Pow2(5) == 32;
  }

  /** Whatever the seed, every draw of a run gives the index that the first one gives. */
  ghost predicate IndexIsConstant(modulus: nat)
    requires modulus != 0
  {
    forall seed: Word, steps: nat :: Target(After(seed, steps), modulus) == Target(seed, modulus)
  }

  /** A modulus that keeps the index of both seeds divides 32. */
  lemma ConstantMeansDivisor(x: Word, y: Word, y': Word, modulus: nat)
    requires modulus != 0 && !x[31] && Target(x[31 := true], modulus) == Target(x, modulus)
    requires y[5] != y'[5] && Target(y, modulus) == Target(y', modulus)
    ensures 32 % modulus == 0
  {
    var j := ConstantMeansPower(x, 31, modulus);
    ConstantMeansSmall(y, y', j);
    DivisorsOf32(j);
  }

  /** The step from seed `x` to seed `y` changes no index. */
  lemma OneStep(x: Word, y: Word, modulus: nat)
    requires modulus != 0 && y == NextSeed(x)
    requires IndexIsConstant(modulus)
    ensures Target(y, modulus) == Target(x, modulus)
  {
    assert After(x, 0) == x;
    assert After(x, 1) == y;
  }

  /** The moduli that make the index constant on every seed are exactly the divisors of 32. */
  lemma TargetIsConstantIff(modulus: nat)
    requires modulus != 0
    ensures IndexIsConstant(modulus) <==> 32 % modulus == 0
  {
    if 32 % modulus == 0 {
      forall seed: Word, steps: nat
        ensures Target(After(seed, steps), modulus) == Target(seed, modulus)
      {
        TargetIsConstantWhenModulusDivides32(seed, modulus, steps);
      }
    }
    if IndexIsConstant(modulus) {
      var x, x', y, y' := TwoSeeds();
      OneStep(x, x', modulus);
      OneStep(y, y', modulus);
      ConstantMeansDivisor(x, y, y', modulus);
    }
  }

  lemma TwoSeeds() returns (x: Word, x': Word, y: Word, y': Word)
    ensures x' == NextSeed(x) && !x[31] && x' == x[31 := true]
    ensures y' == NextSeed(y) && y[5] != y'[5]
  {
    x, y := Bit(26), Bit(0);
    x', y' := NextSeed(x), NextSeed(y);
    NextOfBit26();
    NextOfBit0();
  }
}
