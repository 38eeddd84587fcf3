/**
  The BitSlow fingerprint of a coin (src/bitslow.ts): a deliberately slow loop
  accumulates a BigInt from the coin's three bits, and the decimal text of the
  accumulator is fed to an MD5 digest printed in hex.

  The accumulator loop is modelled step by step and proved equal to a closed
  form. The MD5 digest itself is a library call: it is a parameter of the model,
  a function from text to 32 lower-case hex digits.
 */
module BitSlow {
  import Decimal

  /** Number of rounds of the accumulator loop. */
  const Rounds: nat := 1_000_000

  /** BigInt `a / d` for a positive divisor: the quotient truncated toward zero. */
  function TruncDiv(a: int, d: int): (q: int)
    requires d > 0
    ensures a >= 0 ==> q >= 0 && q * d <= a < q * d + d
    ensures a < 0 ==> q <= 0 && q * d - d < a <= q * d
  {
    if a >= 0 then a / d else -((-a) / d)
  }

  /** BigInt `a % d` for a positive divisor: the remainder takes the sign of `a`. */
  function TruncRem(a: int, d: int): (r: int)
    requires d > 0
    ensures a == TruncDiv(a, d) * d + r
    ensures a >= 0 ==> 0 <= r < d
    ensures a < 0 ==> -d < r <= 0
  {
    a - TruncDiv(a, d) * d
  }

  function Square(x: int): int {
    x * x
  }

  function Cube(x: int): int {
    x * x * x
  }

  /** `(bit1 % 1000n) + bit1 / 100n`: what every round adds. */
  function Base(bit1: int): int {
    TruncRem(bit1, 1000) + TruncDiv(bit1, 100)
  }

  /** What round `i` adds in all: the base, then `bit3 ** 3n` when `i` is odd and `bit2 ** 2n` when it is even. */
  function Increment(i: nat, bit1: int, bit2: int, bit3: int): int {
    Base(bit1) + if i % 2 == 1 then Cube(bit3) else Square(bit2)
  }

  /**
    Closed form of the accumulator after `i` rounds: the rounds 0 .. i-1 hold
    ceil(i/2) even and floor(i/2) odd indices.
   */
  function Accumulated(i: nat, bit1: int, bit2: int, bit3: int): int {
    i * Base(bit1) + ((i + 1) / 2) * Square(bit2) + (i / 2) * Cube(bit3)
  }

  /** One more round adds exactly that round's increment to the closed form. */
  lemma AccumulatedStep(i: nat, bit1: int, bit2: int, bit3: int)
    ensures Accumulated(i + 1, bit1, bit2, bit3) == Accumulated(i, bit1, bit2, bit3) + Increment(i, bit1, bit2, bit3)
  {
    var b, s, c := Base(bit1), Square(bit2), Cube(bit3);
    if i % 2 == 1 {
      assert (i + 2) / 2 == (i + 1) / 2 && (i + 1) / 2 == i / 2 + 1;
      calc {
        Accumulated(i + 1, bit1, bit2, bit3);
        (i + 1) * b + ((i + 1) / 2) * s + (i / 2 + 1) * c;
        { assert (i / 2 + 1) * c == (i / 2) * c + c; assert (i + 1) * b == i * b + b; }
        Accumulated(i, bit1, bit2, bit3) + b + c;
      }
    } else {
      assert (i + 2) / 2 == (i + 1) / 2 + 1 && (i + 1) / 2 == i / 2;
      calc {
        Accumulated(i + 1, bit1, bit2, bit3);
        (i + 1) * b + ((i + 1) / 2 + 1) * s + (i / 2) * c;
        { assert ((i + 1) / 2 + 1) * s == ((i + 1) / 2) * s + s; assert (i + 1) * b == i * b + b; }
        Accumulated(i, bit1, bit2, bit3) + b + s;
      }
    }
  }

  /**
    The accumulator loop of `computeBitSlow`: a million rounds, each adding the
    base and then a square or a cube according to the parity of the round.
   */
  method Accumulate(bit1: int, bit2: int, bit3: int) returns (n: int)
    ensures n == Accumulated(Rounds, bit1, bit2, bit3)
    ensures n == 1_000_000 * Base(bit1) + 500_000 * Square(bit2) + 500_000 * Cube(bit3)
  {
    n := 0;
    for i := 0 to Rounds
      invariant n == Accumulated(i, bit1, bit2, bit3)
    {
      AccumulatedStep(i, bit1, bit2, bit3);
      n := n + (TruncRem(bit1, 1000) + TruncDiv(bit1, 100));
      if i % 2 == 1 {
        n := n + bit3 * bit3 * bit3;
      } else {
        n := n + bit2 * bit2;
      }
    }
  }

  predicate IsHexDigit(c: char) {
    '0' <= c <= '9' || 'a' <= c <= 'f'
  }

  /** What `hasher.digest("hex")` returns for MD5: 32 lower-case hex digits. */
  type HexDigest = s: string | |s| == 32 && forall i :: 0 <= i < |s| ==> IsHexDigit(s[i])
    witness "00000000000000000000000000000000"

  /** The text handed to the digest: `n.toString()` of the final accumulator. */
  function DigestInput(bit1: int, bit2: int, bit3: int): string {
    Decimal.IntToString(Accumulated(Rounds, bit1, bit2, bit3))
  }

  /**
    `computeBitSlow(bit1, bit2, bit3)`. The result depends on the three bits
    only, through the closed-form accumulator, so equal bits give equal hashes.
   */
  method ComputeBitSlow(bit1: int, bit2: int, bit3: int, md5Hex: string -> HexDigest) returns (hash: HexDigest)
    ensures hash == md5Hex(DigestInput(bit1, bit2, bit3))
  {
    var n := Accumulate(bit1, bit2, bit3);
    hash := md5Hex(Decimal.IntToString(n));
  }

  /** For non-negative bits the truncating BigInt operators agree with Euclidean ones. */
  lemma BaseOfNonNegative(bit1: int)
    requires bit1 >= 0
    ensures Base(bit1) == bit1 % 1000 + bit1 / 100
  {
  }

  /** For non-negative bits the accumulator never decreases from round to round and stays non-negative. */
  lemma {:induction false} AccumulatorNeverDecreases(i: nat, j: nat, bit1: int, bit2: int, bit3: int)
    requires bit1 >= 0 && bit2 >= 0 && bit3 >= 0
    requires i <= j
    ensures 0 <= Accumulated(i, bit1, bit2, bit3) <= Accumulated(j, bit1, bit2, bit3)
  {
    if i < j {
      AccumulatorNeverDecreases(i, j - 1, bit1, bit2, bit3);
      AccumulatedStep(j - 1, bit1, bit2, bit3);
      assert Increment(j - 1, bit1, bit2, bit3) >= 0 by {
        assert Square(bit2) >= 0;
        assert Cube(bit3) == bit3 * (bit3 * bit3) >= 0;
      }
    } else {
      assert Square(bit2) >= 0;
      assert Cube(bit3) == bit3 * (bit3 * bit3) >= 0;
      assert (i + 1) / 2 * Square(bit2) >= 0;
      assert (i / 2) * Cube(bit3) >= 0;
    }
  }

  /** Accumulators that differ are printed differently, so the digest is fed different text. */
  lemma DistinctAccumulatorsDistinctInput(bit1: int, bit2: int, bit3: int, bit1': int, bit2': int, bit3': int)
    requires Accumulated(Rounds, bit1, bit2, bit3) != Accumulated(Rounds, bit1', bit2', bit3')
    ensures DigestInput(bit1, bit2, bit3) != DigestInput(bit1', bit2', bit3')
  {
    if DigestInput(bit1, bit2, bit3) == DigestInput(bit1', bit2', bit3') {
      Decimal.IntToStringInjective(Accumulated(Rounds, bit1, bit2, bit3), Accumulated(Rounds, bit1', bit2', bit3'));
    }
  }

  /** The two inputs of the distinctness test give different accumulators and different digest inputs. */
  lemma SwappedTestInputsDiffer()
    ensures Accumulated(Rounds, 123, 456, 789) != Accumulated(Rounds, 789, 456, 123)
    ensures DigestInput(123, 456, 789) != DigestInput(789, 456, 123)
  {
    assert Accumulated(Rounds, 123, 456, 789) == 124_000_000 + 500_000 * 207_936 + 500_000 * 491_169_069;
    assert Accumulated(Rounds, 789, 456, 123) == 796_000_000 + 500_000 * 207_936 + 500_000 * 1_860_867;
    DistinctAccumulatorsDistinctInput(123, 456, 789, 789, 456, 123);
  }

  /** With all-zero bits the accumulator is 0 after any number of rounds. */
  lemma ZeroBitsStayZero(i: nat)
    ensures Accumulated(i, 0, 0, 0) == 0
  {
    assert Base(0) == 0 && Square(0) == 0 && Cube(0) == 0;
  }

  /** All-zero bits: the loop ends with 0 and the digest is taken of the text "0". */
  lemma ZeroInputs()
    ensures DigestInput(0, 0, 0) == "0"
  {
    ZeroBitsStayZero(Rounds);
    Decimal.PrintsZero(Accumulated(Rounds, 0, 0, 0));
  }
}
