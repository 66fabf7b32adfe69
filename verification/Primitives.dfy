/** Fixed-width integers and the checked operations of prices, quantities and
    money.  A width is a subset type, so every value stored at that type carries
    the obligation that the unsigned operation producing it did not wrap. */
module Primitives {

  const MAX32: int := 0xFFFF_FFFF
  const MAX64: int := 0xFFFF_FFFF_FFFF_FFFF
  const MAX128: int := 0xFFFF_FFFF_FFFF_FFFF_FFFF_FFFF_FFFF_FFFF

  type u8 = x: int | 0 <= x <= 255
  type u32 = x: int | 0 <= x <= MAX32
  type u64 = x: int | 0 <= x <= MAX64
  type u128 = x: int | 0 <= x <= MAX128

  datatype Option<+T> = None | Some(value: T)

  /** Outcome of a fallible operation.  Error kinds and messages are not kept. */
  datatype Result<+T> = Ok(value: T) | Err {
    predicate IsFailure() { Err? }
    function PropagateFailure<U>(): Result<U>
      requires Err?
    { Err }
    function Extract(): T
      requires Ok?
    { value }
  }

  function Min(a: int, b: int): (m: int)
    ensures m <= a && m <= b && (m == a || m == b)
  { if a < b then a else b }

  function AddQty(a: u64, b: u64): (r: Result<u64>)
    ensures r == if a + b <= MAX64 then Ok(a + b) else Err
  { if a > MAX64 - b then Err else Ok(a + b) }

  function SubQty(a: u64, b: u64): (r: Result<u64>)
    ensures r.Ok? <==> b <= a
    ensures r.Ok? ==> r.value + b == a
  { if a < b then Err else Ok(a - b) }

  function SaturatingSubQty(a: u64, b: u64): (r: u64)
    ensures b <= a ==> r + b == a
    ensures a <= b ==> r == 0
  { if a < b then 0 else a - b }

  function AddMoney(a: u128, b: u128): (r: Result<u128>)
    ensures r == if a + b <= MAX128 then Ok(a + b) else Err
  { if a > MAX128 - b then Err else Ok(a + b) }

  function SubMoney(a: u128, b: u128): (r: Result<u128>)
    ensures r.Ok? <==> b <= a
    ensures r.Ok? ==> r.value + b == a
  { if a < b then Err else Ok(a - b) }

  function Pow256(n: nat): (p: nat)
    ensures p > 0
  {
    if n == 0 then 1 else 256 * Pow256(n - 1)
  }

  lemma {:induction false} WordSizes()
    ensures Pow256(4) == 0x1_0000_0000
    ensures Pow256(8) == MAX64 + 1
    ensures Pow256(16) == MAX128 + 1
  {
    assert Pow256(2) == 0x1_0000;
    assert Pow256(4) == 0x1_0000_0000;
    assert Pow256(6) == 0x1_0000_0000_0000;
    assert Pow256(8) == 0x1_0000_0000_0000_0000;
    assert Pow256(10) == 0x1_0000_0000_0000_0000_0000;
    assert Pow256(12) == 0x1_0000_0000_0000_0000_0000_0000;
    assert Pow256(14) == 0x1_0000_0000_0000_0000_0000_0000_0000;
  }

  lemma {:induction false} MulLe(a: nat, b: nat, c: nat, d: nat)
    requires a <= c && b <= d
    ensures a * b <= c * d
  {
    assert a * b <= a * d;
    assert a * d <= c * d;
  }

  lemma {:induction false} QuotientBound(n: nat, p: nat, q: nat)
    requires 0 < p
    ensures p * q <= n <==> q <= n / p
  {
    var k := n / p;
    assert n == p * k + n % p;
    if q <= k {
      MulLe(p, q, p, k);
    } else {
      MulLe(p, k + 1, p, q);
    }
  }

  /** A price-times-quantity product with its 128-bit overflow guard. */
  function PriceTimesQty(p: u64, q: u64): (r: Result<u128>)
    ensures r.Ok? ==> r.value == p * q
  {
    if p != 0 && q > MAX128 / p then Err
    else
      assert 0 <= p * q <= MAX128 by {
        if p != 0 { QuotientBound(MAX128, p, q); }
      }
      Ok(p * q)
  }

  /** No pair of 64-bit operands reaches the guard. */
  lemma {:induction false} ProductNeverOverflows(p: u64, q: u64)
    ensures PriceTimesQty(p, q) == Ok(p * q)
  {
    MulLe(p, q, MAX64, MAX64);
    if p != 0 { QuotientBound(MAX128, p, q); }
  }
}
