/** Commitments as symbolic digests.

    A digest is the term that was hashed: a byte payload under the leaf prefix,
    a pair of digests under the node prefix, the empty-node constant, or the
    all-zero value.  Two digests are equal exactly when the hashed terms are, so
    collision resistance and domain separation are structural; that distinct
    records have distinct payloads is not assumed but proved from the
    encodings. */
module Commitments {
  import opened Primitives
  import opened Orders
  import opened Ledgers

  datatype Token = Byte(b: u8) | Embedded(d: Digest)

  datatype Digest = Leaf(payload: seq<Token>) | Node(left: Digest, right: Digest) | Empty | Zero

  // ---- Little-endian integers ----

  function LittleEndian(x: nat, n: nat): (r: seq<Token>)
    ensures |r| == n
  {
    if n == 0 then [] else [Byte(x % 256)] + LittleEndian(x / 256, n - 1)
  }

  lemma {:induction false} LittleEndianInjective(x: nat, y: nat, n: nat)
    requires x < Pow256(n) && y < Pow256(n)
    requires LittleEndian(x, n) == LittleEndian(y, n)
    ensures x == y
  {
    if n > 0 {
      var a, b := LittleEndian(x, n), LittleEndian(y, n);
      assert a[0] == Byte(x % 256) && b[0] == Byte(y % 256);
      assert a[1..] == LittleEndian(x / 256, n - 1) && b[1..] == LittleEndian(y / 256, n - 1);
      LittleEndianInjective(x / 256, y / 256, n - 1);
    }
  }

  function LE32(x: nat): seq<Token> { LittleEndian(x, 4) }
  function LE64(x: u64): seq<Token> { LittleEndian(x, 8) }
  function LE128(x: u128): seq<Token> { LittleEndian(x, 16) }

  lemma {:induction false} LE64Injective(x: u64, y: u64)
    requires LE64(x) == LE64(y)
    ensures x == y
  {
    WordSizes();
    LittleEndianInjective(x, y, 8);
  }

  lemma {:induction false} LE128Injective(x: u128, y: u128)
    requires LE128(x) == LE128(y)
    ensures x == y
  {
    WordSizes();
    LittleEndianInjective(x, y, 16);
  }

  /** The number that a little-endian run of bytes spells. */
  function Spelled(s: seq<Token>): nat
    requires forall t :: t in s ==> t.Byte?
  {
    if s == [] then 0 else s[0].b + 256 * Spelled(s[1..])
  }

  lemma {:induction false} LittleEndianSpells(x: nat, n: nat)
    requires x < Pow256(n)
    ensures forall t :: t in LittleEndian(x, n) ==> t.Byte?
    ensures Spelled(LittleEndian(x, n)) == x
  {
    if n > 0 {
      LittleEndianSpells(x / 256, n - 1);
      var rest := LittleEndian(x / 256, n - 1);
      assert LittleEndian(x, n)[1..] == rest;
    }
  }

  /** The `n` bytes from position `at` spell this number, least significant first. */
  ghost predicate NumberAt(s: seq<Token>, at: nat, n: nat, x: nat)
  {
    && at + n <= |s|
    && (forall t :: t in s[at..at + n] ==> t.Byte?)
    && Spelled(s[at..at + n]) == x
  }

  ghost predicate TextAt(s: seq<Token>, at: nat, text: string)
  {
    at + |text| <= |s| && forall i :: 0 <= i < |text| ==> s[at + i].Byte? && s[at + i].b == text[i] as int
  }

  ghost predicate SaltAt(s: seq<Token>, at: nat, salt: Salt)
  {
    at + 32 <= |s| && forall i :: 0 <= i < 32 ==> s[at + i] == Byte(salt[i])
  }

  /** Reads one field and leaves the rest. */
  lemma {:induction false} FieldAt(s: seq<Token>, at: nat, n: nat, x: nat, rest: seq<Token>)
    requires x < Pow256(n) && at <= |s| && s[at..] == LittleEndian(x, n) + rest
    ensures at + n <= |s| && NumberAt(s, at, n, x)
    ensures s[at + n..] == rest
  {
    LittleEndianSpells(x, n);
    assert s[at..at + n] == s[at..][..n] == LittleEndian(x, n);
    assert s[at + n..] == s[at..][n..];
  }

  lemma {:induction false} FourLetters(s: seq<Token>, text: string)
    requires |s| >= 4 == |text| && s[0].Byte? && s[1].Byte? && s[2].Byte? && s[3].Byte?
    requires s[0].b == text[0] as int && s[1].b == text[1] as int && s[2].b == text[2] as int && s[3].b == text[3] as int
    ensures TextAt(s, 0, text)
  {
  }

  lemma {:induction false} SaltFrom(s: seq<Token>, at: nat, salt: Salt)
    requires at <= |s| && s[at..] == Bytes(salt)
    ensures |s| == at + 32 && SaltAt(s, at, salt)
  {
    assert forall i :: 0 <= i < 32 ==> s[at + i] == s[at..][i];
  }

  lemma {:induction false} TagAt(s: seq<Token>, a: Token, b: Token, c: Token, d: Token, v: Token, rest: seq<Token>)
    requires s == [a, b, c, d, v] + rest
    ensures |s| >= 5 && s[0] == a && s[1] == b && s[2] == c && s[3] == d && s[4..] == [v] + rest
  {
  }

  lemma {:induction false} ByteAt(s: seq<Token>, at: nat, b: u8, rest: seq<Token>)
    requires at <= |s| && s[at..] == [Byte(b)] + rest
    ensures at + 1 <= |s| && NumberAt(s, at, 1, b)
    ensures s[at + 1..] == rest
  {
    assert s[at..at + 1] == s[at..][..1] == [Byte(b)];
    assert s[at + 1..] == s[at..][1..];
    assert Spelled([Byte(b)][1..]) == 0;
  }

  /** Fixed-width fields can be split off one at a time. */
  lemma {:induction false} SplitField(a: seq<Token>, b: seq<Token>, c: seq<Token>, d: seq<Token>)
    requires a + b == c + d && |a| == |c|
    ensures a == c && b == d
  {
    assert a == (a + b)[..|a|] && b == (a + b)[|a|..];
    assert c == (c + d)[..|c|] && d == (c + d)[|c|..];
  }

  // ---- Canonical encodings ----

  const ENCODING_VERSION: Token := Byte(1)

  function Bytes(s: Salt): (r: seq<Token>)
    ensures |r| == 32
  {
    seq(32, i requires 0 <= i < 32 => Byte(s[i]))
  }

  lemma {:induction false} BytesInjective(s: Salt, t: Salt)
    requires Bytes(s) == Bytes(t)
    ensures s == t
  {
    forall i | 0 <= i < 32 ensures s[i] == t[i] {
      assert Bytes(s)[i] == Byte(s[i]) && Bytes(t)[i] == Byte(t[i]);
    }
  }

  /** Tag `FCAC`, version, account, cash, instrument, inventory, salt. */
  function EncodeAccount(id: u64, cash: u128, instrument: u64, inventory: u64, salt: Salt): seq<Token>
  {
    [Byte(70), Byte(67), Byte(65), Byte(67), ENCODING_VERSION]
    + (LE64(id) + (LE128(cash) + (LE64(instrument) + (LE64(inventory) + Bytes(salt)))))
  }

  lemma {:induction false} EncodeAccountInjective(
      id: u64, cash: u128, inst: u64, inv: u64, salt: Salt, id': u64, cash': u128, inst': u64, inv': u64, salt': Salt)
    requires EncodeAccount(id, cash, inst, inv, salt) == EncodeAccount(id', cash', inst', inv', salt')
    ensures id == id' && cash == cash' && inst == inst' && inv == inv' && salt == salt'
  {
    var tag := [Byte(70), Byte(67), Byte(65), Byte(67), ENCODING_VERSION];
    var t4, t4' := LE64(inv) + Bytes(salt), LE64(inv') + Bytes(salt');
    var t3, t3' := LE64(inst) + t4, LE64(inst') + t4';
    var t2, t2' := LE128(cash) + t3, LE128(cash') + t3';
    SplitField(tag, LE64(id) + t2, tag, LE64(id') + t2');
    SplitField(LE64(id), t2, LE64(id'), t2');
    SplitField(LE128(cash), t3, LE128(cash'), t3');
    SplitField(LE64(inst), t4, LE64(inst'), t4');
    SplitField(LE64(inv), Bytes(salt), LE64(inv'), Bytes(salt'));
    LE64Injective(id, id');
    LE128Injective(cash, cash');
    LE64Injective(inst, inst');
    LE64Injective(inv, inv');
    BytesInjective(salt, salt');
  }

  /** The 77 bytes of an account commitment, field by field. */
  lemma {:induction false} AccountLayout(id: u64, cash: u128, instrument: u64, inventory: u64, salt: Salt)
    ensures var s := EncodeAccount(id, cash, instrument, inventory, salt);
            && |s| == 77 && TextAt(s, 0, "FCAC") && NumberAt(s, 4, 1, 1)
            && NumberAt(s, 5, 8, id) && NumberAt(s, 13, 16, cash) && NumberAt(s, 29, 8, instrument)
            && NumberAt(s, 37, 8, inventory) && SaltAt(s, 45, salt)
  {
    hide LittleEndian, NumberAt, Pow256, TextAt, SaltAt, Bytes;
    WordSizes();
    var s := EncodeAccount(id, cash, instrument, inventory, salt);
    var t5 := Bytes(salt);
    var t4 := LE64(inventory) + t5;
    var t3 := LE64(instrument) + t4;
    var t2 := LE128(cash) + t3;
    var t1 := LE64(id) + t2;
    TagAt(s, Byte(70), Byte(67), Byte(65), Byte(67), ENCODING_VERSION, t1);
    FourLetters(s, "FCAC");
    ByteAt(s, 4, 1, t1);
    FieldAt(s, 5, 8, id, t2);
    FieldAt(s, 13, 16, cash, t3);
    FieldAt(s, 29, 8, instrument, t4);
    FieldAt(s, 37, 8, inventory, t5);
    SaltFrom(s, 45, salt);
  }

  datatype SaltedOrder = SaltedOrder(order: Order, nonce: Salt)

  /** Tag `FCOR`, version, order fields with the side as one byte, nonce. */
  function EncodeOrder(p: SaltedOrder): seq<Token>
  {
    [Byte(70), Byte(67), Byte(79), Byte(82), ENCODING_VERSION]
    + (LE64(p.order.id) + (LE64(p.order.account) + (LE64(p.order.instrument)
    + ([Byte(if p.order.side.Buy? then 0 else 1)]
    + (LE64(p.order.price) + (LE64(p.order.qty) + (LE64(p.order.seqNo) + Bytes(p.nonce))))))))
  }

  lemma {:induction false} EncodeOrderInjective(p: SaltedOrder, q: SaltedOrder)
    requires EncodeOrder(p) == EncodeOrder(q)
    ensures p == q
  {
    var tag := [Byte(70), Byte(67), Byte(79), Byte(82), ENCODING_VERSION];
    var o, u := p.order, q.order;
    var a6, b6 := LE64(o.seqNo) + Bytes(p.nonce), LE64(u.seqNo) + Bytes(q.nonce);
    var a5, b5 := LE64(o.qty) + a6, LE64(u.qty) + b6;
    var a4, b4 := LE64(o.price) + a5, LE64(u.price) + b5;
    var sa, sb := [Byte(if o.side.Buy? then 0 else 1)], [Byte(if u.side.Buy? then 0 else 1)];
    var a3, b3 := sa + a4, sb + b4;
    var a2, b2 := LE64(o.instrument) + a3, LE64(u.instrument) + b3;
    var a1, b1 := LE64(o.account) + a2, LE64(u.account) + b2;
    SplitField(tag, LE64(o.id) + a1, tag, LE64(u.id) + b1);
    SplitField(LE64(o.id), a1, LE64(u.id), b1);
    SplitField(LE64(o.account), a2, LE64(u.account), b2);
    SplitField(LE64(o.instrument), a3, LE64(u.instrument), b3);
    SplitField(sa, a4, sb, b4);
    SplitField(LE64(o.price), a5, LE64(u.price), b5);
    SplitField(LE64(o.qty), a6, LE64(u.qty), b6);
    SplitField(LE64(o.seqNo), Bytes(p.nonce), LE64(u.seqNo), Bytes(q.nonce));
    assert sa[0] == sb[0];
    LE64Injective(o.id, u.id);
    LE64Injective(o.account, u.account);
    LE64Injective(o.instrument, u.instrument);
    LE64Injective(o.price, u.price);
    LE64Injective(o.qty, u.qty);
    LE64Injective(o.seqNo, u.seqNo);
    BytesInjective(p.nonce, q.nonce);
  }

  /** The 86 bytes of an order commitment, field by field. */
  lemma {:induction false} OrderLayout(p: SaltedOrder)
    ensures var s, o := EncodeOrder(p), p.order;
            && |s| == 86 && TextAt(s, 0, "FCOR") && NumberAt(s, 4, 1, 1)
            && NumberAt(s, 5, 8, o.id) && NumberAt(s, 13, 8, o.account) && NumberAt(s, 21, 8, o.instrument)
            && NumberAt(s, 29, 1, if o.side.Buy? then 0 else 1)
            && NumberAt(s, 30, 8, o.price) && NumberAt(s, 38, 8, o.qty) && NumberAt(s, 46, 8, o.seqNo)
            && SaltAt(s, 54, p.nonce)
  {
    hide LittleEndian, NumberAt, Pow256, TextAt, SaltAt, Bytes;
    WordSizes();
    var s, o := EncodeOrder(p), p.order;
    var t8 := Bytes(p.nonce);
    var t7 := LE64(o.seqNo) + t8;
    var t6 := LE64(o.qty) + t7;
    var t5 := LE64(o.price) + t6;
    var t4 := [Byte(if o.side.Buy? then 0 else 1)] + t5;
    var t3 := LE64(o.instrument) + t4;
    var t2 := LE64(o.account) + t3;
    var t1 := LE64(o.id) + t2;
    TagAt(s, Byte(70), Byte(67), Byte(79), Byte(82), ENCODING_VERSION, t1);
    FourLetters(s, "FCOR");
    ByteAt(s, 4, 1, t1);
    FieldAt(s, 5, 8, o.id, t2);
    FieldAt(s, 13, 8, o.account, t3);
    FieldAt(s, 21, 8, o.instrument, t4);
    ByteAt(s, 29, if o.side.Buy? then 0 else 1, t5);
    FieldAt(s, 30, 8, o.price, t6);
    FieldAt(s, 38, 8, o.qty, t7);
    FieldAt(s, 46, 8, o.seqNo, t8);
    SaltFrom(s, 54, p.nonce);
  }

  function CommitOrder(p: SaltedOrder): Digest { Leaf(EncodeOrder(p)) }

  /** Tag `FCBH`, version, semantic version, batch, instrument, cutoff, order
      count and order root. */
  function CommitHeader(version: nat, batchId: u64, instrument: u64, cutoff: u64, count: nat, root: Digest): Digest
  {
    Leaf([Byte(70), Byte(67), Byte(66), Byte(72), ENCODING_VERSION]
         + (LE32(version) + (LE64(batchId) + (LE64(instrument) + (LE64(cutoff) + (LE32(count) + [Embedded(root)]))))))
  }

  /** The header's bytes up to the order root, which closes it. */
  lemma {:induction false} HeaderLayout(version: u32, batchId: u64, instrument: u64, cutoff: u64, count: u32, root: Digest)
    ensures CommitHeader(version, batchId, instrument, cutoff, count, root).Leaf?
    ensures var s := CommitHeader(version, batchId, instrument, cutoff, count, root).payload;
            && |s| == 38 && TextAt(s, 0, "FCBH") && NumberAt(s, 4, 1, 1) && NumberAt(s, 5, 4, version)
            && NumberAt(s, 9, 8, batchId) && NumberAt(s, 17, 8, instrument) && NumberAt(s, 25, 8, cutoff)
            && NumberAt(s, 33, 4, count) && s[37] == Embedded(root)
  {
    hide LittleEndian, NumberAt, Pow256, TextAt, SaltAt, Bytes;
    WordSizes();
    var s := CommitHeader(version, batchId, instrument, cutoff, count, root).payload;
    var t6 := [Embedded(root)];
    var t5 := LE32(count) + t6;
    var t4 := LE64(cutoff) + t5;
    var t3 := LE64(instrument) + t4;
    var t2 := LE64(batchId) + t3;
    var t1 := LE32(version) + t2;
    TagAt(s, Byte(70), Byte(67), Byte(66), Byte(72), ENCODING_VERSION, t1);
    FourLetters(s, "FCBH");
    ByteAt(s, 4, 1, t1);
    FieldAt(s, 5, 4, version, t2);
    FieldAt(s, 9, 8, batchId, t3);
    FieldAt(s, 17, 8, instrument, t4);
    FieldAt(s, 25, 8, cutoff, t5);
    FieldAt(s, 33, 4, count, t6);
  }

  /** `FCOS_ABSENT_V1`: the committed absence of an oracle snapshot. */
  const NO_ORACLE: Digest :=
    Leaf([Byte(70), Byte(67), Byte(79), Byte(83), Byte(95), Byte(65), Byte(66), Byte(83),
          Byte(69), Byte(78), Byte(84), Byte(95), Byte(86), Byte(49)])

  lemma {:induction false} AbsenceMarker()
    ensures NO_ORACLE.Leaf? && |NO_ORACLE.payload| == 14 && TextAt(NO_ORACLE.payload, 0, "FCOS_ABSENT_V1")
  {
  }

  /** One link of the history accumulator. */
  function CommitHistory(previous: Digest, header: Digest, price: u64, volume: u64): Digest
  {
    Leaf([Embedded(previous), Embedded(header)] + (LE64(price) + LE64(volume)))
  }

  /** A link holds its predecessor, then the header, price and volume. */
  lemma {:induction false} HistoryLayout(previous: Digest, header: Digest, price: u64, volume: u64)
    ensures CommitHistory(previous, header, price, volume).Leaf?
    ensures var s := CommitHistory(previous, header, price, volume).payload;
            && |s| == 18 && s[0] == Embedded(previous) && s[1] == Embedded(header)
            && NumberAt(s, 2, 8, price) && NumberAt(s, 10, 8, volume)
  {
    hide LittleEndian, NumberAt, Pow256;
    WordSizes();
    var s := CommitHistory(previous, header, price, volume).payload;
    assert s[2..] == LE64(price) + LE64(volume);
    FieldAt(s, 2, 8, price, LE64(volume));
    assert LE64(volume) + [] == LE64(volume);
    FieldAt(s, 10, 8, volume, []);
  }

  lemma {:induction false} CommitHistoryInjective(p: Digest, h: Digest, c: u64, v: u64, p': Digest, h': Digest, c': u64, v': u64)
    requires CommitHistory(p, h, c, v) == CommitHistory(p', h', c', v')
    ensures p == p' && h == h' && c == c' && v == v'
  {
    var a, b := [Embedded(p), Embedded(h)], [Embedded(p'), Embedded(h')];
    SplitField(a, LE64(c) + LE64(v), b, LE64(c') + LE64(v'));
    SplitField(LE64(c), LE64(v), LE64(c'), LE64(v'));
    assert a[0] == b[0] && a[1] == b[1];
    LE64Injective(c, c');
    LE64Injective(v, v');
  }
}
