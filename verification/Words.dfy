/** Machine words of the hub.

    Identifiers and packet fields are `Uint`, Go's 64-bit `uint` as a bit vector.
    The call counters are `Word`: the same 64 bits read as a number, so that
    wrap-around is the explicit remainder of `Wrap`. */
module Words {

  type Byte = bv8

  type Uint = bv64

  /** The number of a repeater, a talkgroup or a user. */
  type Id = nat

  /** A network address. */
  type Address = nat

  const MODULUS: int := 0x1_0000_0000_0000_0000

  type Word = x: int | 0 <= x < MODULUS

  /** The word an unbounded integer is stored as. */
  function Wrap(x: int): (w: Word)
    ensures 0 <= x < MODULUS ==> w == x
  {
    x % MODULUS
  }

  /** Addition and subtraction of `uint` values. */
  function Plus(a: Word, b: Word): Word {
    Wrap(a + b)
  }

  function Minus(a: Word, b: Word): Word {
    Wrap(a - b)
  }

  /** Wrapping late gives the same word as wrapping at every step. */
  lemma WrapSum(a: int, b: int)
    ensures Plus(Wrap(a), Wrap(b)) == Wrap(a + b)
    ensures Minus(Wrap(a), Wrap(b)) == Wrap(a - b)
  {
    var m, n := a / MODULUS, b / MODULUS;
    assert a == MODULUS * m + Wrap(a) && b == MODULUS * n + Wrap(b);
    WrapShift(Wrap(a) + Wrap(b), m + n);
    WrapShift(Wrap(a) - Wrap(b), m - n);
  }

  lemma WrapShift(a: int, k: int)
    ensures Wrap(a + MODULUS * k) == Wrap(a)
  {
    var q := a / MODULUS;
    assert a + MODULUS * k == MODULUS * (q + k) + a % MODULUS;
  }

  /** No element comes twice. */
  ghost predicate Distinct<T>(s: seq<T>) {
    forall i, j :: 0 <= i < j < |s| ==> s[i] != s[j]
  }

  datatype Option<+T> = None | Some(value: T)
}
