/**
 * Shared vocabulary of the cartridge dumper model: bytes, the Go error
 * conventions (a value or an error, nil or an error) and the powers of two
 * that the bit-level code of the bus protocol is stated with.
 */
module Common {

  /** An unsigned 8-bit value: Go's `uint8` (alias `byte`). */
  type byte = x: int | 0 <= x < 256

  /** A Go pointer or slice that may be nil. */
  datatype Option<T> = None | Some(value: T)

  /** A Go `(value, error)` pair where exactly one half is meaningful. */
  datatype Result<T, E> = Success(value: T) | Failure(error: E)

  /** A Go function whose only result is an `error`: nil (`Pass`) or an error. */
  datatype Outcome<E> = Pass | Fail(error: E)

  /** 2^n: Go's `1 << n`, and the exact value of `math.Pow(2, n)` for the small n used here. */
  function Pow2(n: nat): (p: nat)
    ensures p >= 1
  {
    if n == 0 then 1 else 2 * Pow2(n - 1)
  }

  /** Whether bit i of v is set, that is whether `v & (1 << i)` is non-zero. */
  predicate Bit(v: nat, i: nat) {
    (v / Pow2(i)) % 2 == 1
  }

  lemma {:induction false} Pow2Add(a: nat, b: nat)
    ensures Pow2(a + b) == Pow2(a) * Pow2(b)
  {
    if a > 0 {
      Pow2Add(a - 1, b);
      calc {
        Pow2(a + b);
        2 * Pow2(a - 1 + b);
        2 * (Pow2(a - 1) * Pow2(b));
        (2 * Pow2(a - 1)) * Pow2(b);
      }
    }
  }

  lemma {:induction false} Pow2Monotone(a: nat, b: nat)
    requires a <= b
    ensures Pow2(a) <= Pow2(b)
  {
    if a < b {
      Pow2Monotone(a, b - 1);
    }
  }

  lemma MulAtLeast(d: int, k: int)
    requires d > 0 && k >= 1
    ensures d * k >= d
  {
    var e := k - 1;
    assert d * k == d * e + d;
    assert d * e >= 0;
  }

  lemma MulDistributes(a: int, b: int, c: int)
    ensures a * (b + c) == a * b + a * c
  {
  }

  lemma MulAssociates(a: int, b: int, c: int)
    ensures a * (b * c) == (a * b) * c
  {
  }

  /** Quotient and remainder are determined by the defining equation. */
  lemma DivModUnique(v: int, d: int, q: int, r: int)
    requires d > 0 && 0 <= r < d && v == d * q + r
    ensures v / d == q && v % d == r
  {
    var q0, r0 := v / d, v % d;
    assert v == d * q0 + r0;
    MulDistributes(d, q - q0, q0);
    assert d * (q - q0) == r0 - r;
    if q > q0 {
      MulAtLeast(d, q - q0);
    } else if q < q0 {
      MulDistributes(d, q0 - q, q);
      MulAtLeast(d, q0 - q);
    }
  }

  /** Residues modulo consecutive powers of two differ by the weight of bit n. */
  lemma ModPow2Succ(v: nat, n: nat)
    ensures v % Pow2(n + 1) == v % Pow2(n) + (if Bit(v, n) then Pow2(n) else 0)
  {
    var p := Pow2(n);
    var q, r := v / p, v % p;
    var half, b := q / 2, q % 2;
    assert v == p * q + r;
    assert q == 2 * half + b;
    MulDistributes(p, 2 * half, b);
    MulAssociates(p, 2, half);
    assert v == (2 * p) * half + (p * b + r);
    if b == 0 {
      assert p * b == 0;
    } else {
      assert p * b == p;
    }
    DivModUnique(v, 2 * p, half, p * b + r);
  }

  lemma ParityAfterEven(x: int, y: int)
    ensures (2 * x + y) % 2 == y % 2
  {
  }

  lemma QuotientOfResidue(v: nat, p: nat, c: nat)
    requires p > 0 && c > 0
    ensures v / p == c * (v / (p * c)) + (v % (p * c)) / p
    ensures (v % (p * c)) % p == v % p
  {
    var big := p * c;
    var k, w := v / big, v % big;
    var wq, wr := w / p, w % p;
    assert v == big * k + w;
    assert w == p * wq + wr;
    MulAssociates(p, c, k);
    MulDistributes(p, c * k, wq);
    assert v == p * (c * k + wq) + wr;
    DivModUnique(v, p, c * k + wq, wr);
  }

  /** Reducing modulo 2^n leaves every bit below n as it was. */
  lemma BitOfMod(v: nat, n: nat, i: nat)
    requires i < n
    ensures Bit(v % Pow2(n), i) == Bit(v, i)
  {
    var p, m := Pow2(i), Pow2(n - i - 1);
    Pow2Add(i, n - i);
    assert Pow2(n) == p * (2 * m);
    QuotientOfResidue(v, p, 2 * m);
    var k, wq := v / (p * (2 * m)), (v % (p * (2 * m))) / p;
    assert v / p == (2 * m) * k + wq;
    MulAssociates(2, m, k);
    ParityAfterEven(m * k, wq);
  }
}
