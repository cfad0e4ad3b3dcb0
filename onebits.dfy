/** Counting the set bits of the 16-bit words the I2S peripheral captures.
    One set bit is one microsecond during which the echo line was high. */
module OneBits {

  /** An unsigned 16-bit sample word (uint16_t). */
  type u16 = x: int | 0 <= x < 0x1_0000

  /** 2 to the power n. */
  function Pow2(n: nat): (p: nat)
    ensures p >= 1
  {
    if n == 0 then 1 else 2 * Pow2(n - 1)
  }

  /** Population count: the number of 1 digits in the binary form of s,
      read from the least significant end. */
  function PopCount(s: nat): nat
  {
    if s == 0 then 0 else s % 2 + PopCount(s / 2)
  }

  /** Bit i of s (0 or 1). */
  function BitAt(s: nat, i: nat): nat
  {
    (s / Pow2(i)) % 2
  }

  /** Reference definition: the bits at positions 0 .. n-1 of s, added up. */
  function BitSum(s: nat, n: nat): nat
  {
    if n == 0 then 0 else BitSum(s, n - 1) + BitAt(s, n - 1)
  }

  /** 2^16 is the size of the 16-bit range. */
  lemma Pow2Sixteen()
    ensures Pow2(16) == 0x1_0000
  {
    assert Pow2(4) == 16;
    assert Pow2(8) == 16 * Pow2(4) by {
      assert Pow2(8) == 2 * Pow2(7) == 4 * Pow2(6) == 8 * Pow2(5) == 16 * Pow2(4);
    }
    assert Pow2(12) == 16 * Pow2(8) by {
      assert Pow2(12) == 2 * Pow2(11) == 4 * Pow2(10) == 8 * Pow2(9) == 16 * Pow2(8);
    }
    assert Pow2(16) == 16 * Pow2(12) by {
      assert Pow2(16) == 2 * Pow2(15) == 4 * Pow2(14) == 8 * Pow2(13) == 16 * Pow2(12);
    }
  }

  /** Euclidean division is determined by quotient and remainder. */
  lemma DivUnique(s: nat, d: nat, a: int, c: int)
    requires d > 0 && 0 <= c < d && s == d * a + c
    ensures s / d == a
  {
    var k := s / d - a;
    assert d * k == c - s % d;
  }

  /** Division by 2 * m is division by 2 followed by division by m. */
  lemma DivTwice(s: nat, m: nat)
    requires m > 0
    ensures s / (2 * m) == (s / 2) / m
  {
    var q, a, b := s / 2, (s / 2) / m, (s / 2) % m;
    assert q == m * a + b;
    assert s == (2 * m) * a + (2 * b + s % 2);
    DivUnique(s, 2 * m, a, 2 * b + s % 2);
  }

  /** The reference sum peels off bit 0 the way PopCount does. */
  lemma {:induction false} BitSumShift(s: nat, n: nat)
    ensures BitSum(s, n + 1) == s % 2 + BitSum(s / 2, n)
  {
    if n > 0 {
      BitSumShift(s, n - 1);
      DivTwice(s, Pow2(n - 1));
    }
  }

  /** PopCount agrees with the positional definition on every n-bit value. */
  lemma {:induction false} PopCountIsBitSum(s: nat, n: nat)
    requires s < Pow2(n)
    ensures PopCount(s) == BitSum(s, n)
  {
    if n == 0 {
      assert s == 0;
    } else {
      PopCountIsBitSum(s / 2, n - 1);
      BitSumShift(s, n - 1);
    }
  }

  /** Complementing an n-bit value complements its count:
      PopCount(~s) == n - PopCount(s). */
  lemma {:induction false} PopCountComplement(s: nat, n: nat)
    requires s < Pow2(n)
    ensures PopCount(Pow2(n) - 1 - s) == n - PopCount(s)
  {
    if n > 0 {
      var p := Pow2(n - 1);
      assert Pow2(n) == 2 * p;
      assert s / 2 < p;
      var t := 2 * p - 1 - s;
      assert t == 2 * (p - 1 - s / 2) + (1 - s % 2);
      assert t / 2 == p - 1 - s / 2 && t % 2 == 1 - s % 2;
      PopCountComplement(s / 2, n - 1);
    }
  }

  /** An n-bit value has between 0 and n set bits; the all-ones value has n. */
  lemma PopCountRange(s: nat, n: nat)
    requires s < Pow2(n)
    ensures PopCount(s) <= n
    ensures PopCount(Pow2(n) - 1) == n
  {
    PopCountComplement(s, n);
    PopCountComplement(0, n);
  }

  /** The 16-bit instance: every word has at most 16 set bits and 0xffff has exactly 16. */
  lemma WordPopCount(s: u16)
    ensures PopCount(s) <= 16
    ensures PopCount(0xffff) == 16
  {
    Pow2Sixteen();
    PopCountRange(s, 16);
  }

  /** countOneBits: the 0xffff fast path, then shift right until nothing is left,
      counting the low bit at each step. */
  method CountOneBits(sample: u16) returns (count: int)
    ensures count == PopCount(sample)
    ensures 0 <= count <= 16
    ensures count == BitSum(sample, 16)
  {
    WordPopCount(sample);
    Pow2Sixteen();
    PopCountIsBitSum(sample, 16);
    if sample == 0xffff {
      return 16;
    }
    count := 0;
    var s: nat := sample;
    while s != 0
      invariant count + PopCount(s) == PopCount(sample)
      decreases s
    {
      if s % 2 == 1 {
        count := count + 1;
      }
      s := s / 2;
    }
  }

  /** The total number of set bits over a sequence of words, accumulated left to right. */
  function PopSum(s: seq<u16>): nat
  {
    if s == [] then 0 else PopSum(s[..|s| - 1]) + PopCount(s[|s| - 1])
  }

  /** A run of n words holds at most 16 * n set bits. */
  lemma {:induction false} PopSumBound(s: seq<u16>)
    ensures PopSum(s) <= 16 * |s|
  {
    if s != [] {
      PopSumBound(s[..|s| - 1]);
      WordPopCount(s[|s| - 1]);
    }
  }

  /** The loop of sampleState that totals the set bits of the first n words of the rx buffer. */
  method SumOneBits(buf: array<u16>, n: nat) returns (pulseUs: int)
    requires n <= buf.Length
    ensures pulseUs == PopSum(buf[..n])
    ensures 0 <= pulseUs <= 16 * n
  {
    pulseUs := 0;
    var ii := 0;
    while ii < n
      invariant 0 <= ii <= n
      invariant pulseUs == PopSum(buf[..ii])
    {
      var c := CountOneBits(buf[ii]);
      assert buf[..ii + 1][..ii] == buf[..ii];
      pulseUs := pulseUs + c;
      ii := ii + 1;
    }
    PopSumBound(buf[..n]);
  }

  /** Standard population-count values. */
  lemma PopCountExamples()
    ensures PopCount(0x0000) == 0
    ensures PopCount(0x0001) == 1
    ensures PopCount(0xAAAA) == 8
    ensures PopCount(0xffff) == 16
  {
    WordPopCount(0);
    // 0xAAAA is 1010...10: halving it alternately drops a 0 and a 1.
    assert PopCount(0x2) == 1 && PopCount(0xA) == 2 && PopCount(0x2A) == 3;
    assert PopCount(0xAA) == 4 && PopCount(0x2AA) == 5 && PopCount(0xAAA) == 6;
    assert PopCount(0x2AAA) == 7 && PopCount(0xAAAA) == 8;
  }
}
