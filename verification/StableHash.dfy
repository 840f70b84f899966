/** The 32-bit hash of a printed value: a loop over signed JavaScript integers
    that computes unsigned FNV-1a over code units. */
module StableHash {
  import opened Wrappers
  import opened Powers
  import opened Texts
  import opened StableJson

  const M := 0x1_0000_0000
  const OFFSET_BASIS := 2166136261
  const PRIME := 16777619
  const INVERSE := 899433627

  // ----- JavaScript's 32-bit operators -----

  function ToUint32(x: int): (r: nat)
    ensures r < M
  {
    x % M
  }

  function ToInt32(x: int): (r: int)
    ensures -0x8000_0000 <= r < 0x8000_0000
    ensures ToUint32(r) == ToUint32(x)
  {
    var r := x % M;
    if r < 0x8000_0000 then r else r - M
  }

  /** Exclusive or of the lowest k bits. */
  function Xor(k: nat, a: nat, b: nat): (r: nat)
    ensures r < Pow2(k)
  {
    if k == 0 then 0 else (a % 2 + b % 2) % 2 + 2 * Xor(k - 1, a / 2, b / 2)
  }

  lemma WordSize()
    ensures Pow2(32) == M
  {
    assert Pow2(8) == 256;
    assert Pow2(16) == 65536;
    assert Pow2(24) == 16777216;
  }

  /** `a ^ b` */
  function JsXor(a: int, b: int): int {
    ToInt32(Xor(32, ToUint32(a), ToUint32(b)))
  }

  /** `Math.imul(a, b)` */
  function Imul(a: int, b: int): int {
    ToInt32(ToUint32(a) * ToUint32(b))
  }

  lemma XorBits(k: nat, a: nat, b: nat)
    requires k > 0
    ensures Xor(k, a, b) % 2 == (a % 2 + b % 2) % 2
    ensures Xor(k, a, b) / 2 == Xor(k - 1, a / 2, b / 2)
  {
    var bit := (a % 2 + b % 2) % 2;
    assert 0 <= bit < 2;
  }

  lemma BitTwice(a: nat, b: nat)
    ensures ((a % 2 + b % 2) % 2 + b % 2) % 2 == a % 2
  {
  }

  lemma {:induction false} XorSelfInverse(k: nat, a: nat, b: nat)
    requires a < Pow2(k)
    ensures Xor(k, Xor(k, a, b), b) == a
  {
    if k == 0 {
    } else {
      var x := Xor(k, a, b);
      XorBits(k, a, b);
      BitTwice(a, b);
      XorSelfInverse(k - 1, a / 2, b / 2);
      calc {
        Xor(k, x, b);
        (x % 2 + b % 2) % 2 + 2 * Xor(k - 1, x / 2, b / 2);
        a % 2 + 2 * (a / 2);
        a;
      }
    }
  }

  lemma {:induction false} XorCommutes(k: nat, a: nat, b: nat)
    ensures Xor(k, a, b) == Xor(k, b, a)
  {
    if k == 0 {
    } else {
      XorCommutes(k - 1, a / 2, b / 2);
    }
  }

  // ----- FNV-1a -----

  function FnvStep(hash: nat, unit: CodeUnit): nat {
    Xor(32, hash, unit) * PRIME % M
  }

  function Fnv1a(input: Text): (hash: nat)
    ensures hash < M
  {
    if input == [] then OFFSET_BASIS else FnvStep(Fnv1a(input[..|input| - 1]), input[|input| - 1])
  }

  /** The step undone. */
  function FnvUnstep(hash: nat, unit: CodeUnit): nat {
    Xor(32, hash * INVERSE % M, unit)
  }

  lemma ModIs(y: int, x: nat, z: int)
    requires x < M && y == x + M * z
    ensures y % M == x
  {
  }

  lemma PrimeInverse(x: nat)
    requires x < M
    ensures x * PRIME % M * INVERSE % M == x
    ensures x * INVERSE % M * PRIME % M == x
  {
    var t, u := x * PRIME / M, x * INVERSE / M;
    ModIs(x * PRIME % M * INVERSE, x, 3513497 * x - t * INVERSE);
    ModIs(x * INVERSE % M * PRIME, x, 3513497 * x - u * PRIME);
  }

  /** Each step is a bijection on 32-bit states. */
  lemma StepBijective(hash: nat, unit: CodeUnit)
    requires hash < M
    ensures FnvStep(hash, unit) < M && FnvUnstep(hash, unit) < M
    ensures FnvUnstep(FnvStep(hash, unit), unit) == hash
    ensures FnvStep(FnvUnstep(hash, unit), unit) == hash
  {
    WordSize();
    PrimeInverse(Xor(32, hash, unit));
    PrimeInverse(hash);
    XorSelfInverse(32, hash, unit);
    XorSelfInverse(32, hash * INVERSE % M, unit);
  }

  lemma StepSeparatesUnits(hash: nat, u: CodeUnit, v: CodeUnit)
    requires hash < M && FnvStep(hash, u) == FnvStep(hash, v)
    ensures u == v
  {
    WordSize();
    PrimeInverse(Xor(32, hash, u));
    PrimeInverse(Xor(32, hash, v));
    XorCommutes(32, hash, u);
    XorCommutes(32, hash, v);
    XorSelfInverse(32, u, hash);
    XorSelfInverse(32, v, hash);
  }

  /** The two texts differ exactly at position i. */
  ghost predicate DifferOnlyAt(s: Text, t: Text, i: nat) {
    i < |s| == |t| && s[i] != t[i] && forall k :: 0 <= k < |s| && k != i ==> s[k] == t[k]
  }

  /** Texts of one length that differ in one code unit never collide. */
  lemma {:induction false} OneUnitNeverCollides(s: Text, t: Text, i: nat)
    requires DifferOnlyAt(s, t, i)
    ensures Fnv1a(s) != Fnv1a(t)
    decreases |s|
  {
    var n := |s| - 1;
    if i == n {
      assert s[..n] == t[..n];
      if Fnv1a(s) == Fnv1a(t) {
        StepSeparatesUnits(Fnv1a(s[..n]), s[n], t[n]);
      }
    } else {
      OneUnitNeverCollides(s[..n], t[..n], i);
      StepBijective(Fnv1a(s[..n]), s[n]);
      StepBijective(Fnv1a(t[..n]), t[n]);
    }
  }

  // ----- The text of a hash -----

  function Digit36(n: nat): CodeUnit
    requires n < 36
  {
    if n < 10 then 48 + n else 87 + n
  }

  /** `n.toString(36)` */
  function ToBase36(n: nat): (t: Text)
    ensures t != []
  {
    if n < 36 then [Digit36(n)] else ToBase36(n / 36) + [Digit36(n % 36)]
  }

  lemma {:induction false} Base36Injective(m: nat, n: nat)
    requires ToBase36(m) == ToBase36(n)
    ensures m == n
    decreases m
  {
    var s, t := ToBase36(m), ToBase36(n);
    assert s[|s| - 1] == t[|t| - 1];
    if m >= 36 && n >= 36 {
      assert s[..|s| - 1] == ToBase36(m / 36) && t[..|t| - 1] == ToBase36(n / 36);
      Base36Injective(m / 36, n / 36);
    }
  }

  lemma LoopStep(hash: int, unit: CodeUnit)
    ensures ToUint32(Imul(JsXor(hash, unit), PRIME)) == FnvStep(ToUint32(hash), unit)
  {
    WordSize();
    var x := JsXor(hash, unit);
    assert ToUint32(unit) == unit && ToUint32(PRIME) == PRIME;
    assert ToUint32(x) == Xor(32, ToUint32(hash), unit);
    calc {
      ToUint32(Imul(x, PRIME));
      ToUint32(ToUint32(x) * PRIME);
      FnvStep(ToUint32(hash), unit);
    }
  }

  /** `stableHash` on the printed text. */
  method HashText(input: Text) returns (text: Text)
    ensures text == ToBase36(Fnv1a(input))
  {
    var hash: int := OFFSET_BASIS;
    for i := 0 to |input|
      invariant ToUint32(hash) == Fnv1a(input[..i])
    {
      assert input[..i + 1][..i] == input[..i];
      LoopStep(hash, input[i]);
      hash := JsXor(hash, input[i]);
      hash := Imul(hash, PRIME);
    }
    assert input[..|input|] == input;
    text := ToBase36(ToUint32(hash));
  }

  /** The hash of a value; undefined has no text to hash. */
  method StableHashOf(value: Json) returns (text: Option<Text>)
    ensures text.None? <==> value.Undefined?
    ensures text.Some? ==> text.value == ToBase36(Fnv1a(Print(value)))
  {
    var input := StableStringify(value);
    match input {
      case None => text := None;
      case Some(printed) =>
        var hashed := HashText(printed);
        text := Some(hashed);
    }
  }

  /** Values whose texts differ in one code unit get different keys. */
  lemma OneUnitDifferentKeys(v: Json, w: Json, i: nat)
    requires DifferOnlyAt(Print(v), Print(w), i)
    ensures ToBase36(Fnv1a(Print(v))) != ToBase36(Fnv1a(Print(w)))
  {
    OneUnitNeverCollides(Print(v), Print(w), i);
    if ToBase36(Fnv1a(Print(v))) == ToBase36(Fnv1a(Print(w))) {
      Base36Injective(Fnv1a(Print(v)), Fnv1a(Print(w)));
    }
  }
}
