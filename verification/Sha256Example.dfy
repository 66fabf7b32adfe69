/** The standard's one-block example, the message `abc`, carried through the
    padding, the schedule, all 64 rounds and the serialisation. */
module Sha256Example {
  import opened Primitives
  import opened Sha256

  const ABC: seq<u8> := [97, 98, 99]

  // ---- The block and its schedule ----

  lemma {:induction false} LengthField()
    ensures BigEndian(24) == [0, 0, 0, 0, 0, 0, 0, 24]
  {
  }

  ghost predicate HoldsAbc(b: seq<u8>)
  {
    && |b| == 64
    && b[0] == 97 && b[1] == 98 && b[2] == 99 && b[3] == 0x80 && b[63] == 24
    && forall k :: 4 <= k < 63 ==> b[k] == 0
  }

  lemma {:induction false} BlockBytes()
    ensures |Padded(ABC)| == 64 && HoldsAbc(Padded(ABC))
  {
    hide ByteOf, BigEndian;
    LengthField();
    var zeros := Zeros(52);
    assert Padded(ABC) == ABC + [0x80] + zeros + BigEndian(24);
  }

  lemma {:induction false} ThreeWords()
    ensures WordOf(97, 98, 99, 0x80) == 0x61626380 && WordOf(0, 0, 0, 0) == 0 && WordOf(0, 0, 0, 24) == 24
  {
  }

  lemma {:induction false} BlockWords(b: seq<u8>, t: nat)
    requires HoldsAbc(b) && t < 16
    ensures WordAt(b, t) == if t == 0 then 0x61626380 else if t < 15 then 0 else 24
  {
    hide WordOf;
    ThreeWords();
  }

  lemma {:induction false} Expansions16()
    ensures Expanded(0x00000000, 0x00000000, 0x00000000, 0x61626380) == 0x61626380
    ensures Expanded(0x00000018, 0x00000000, 0x00000000, 0x00000000) == 0x000f0000
    ensures Expanded(0x61626380, 0x00000000, 0x00000000, 0x00000000) == 0x7da86405
    ensures Expanded(0x000f0000, 0x00000000, 0x00000000, 0x00000000) == 0x600003c6
    ensures Expanded(0x7da86405, 0x00000000, 0x00000000, 0x00000000) == 0x3e9d7b78
    ensures Expanded(0x600003c6, 0x00000000, 0x00000000, 0x00000000) == 0x0183fc00
    ensures Expanded(0x3e9d7b78, 0x00000018, 0x00000000, 0x00000000) == 0x12dcbfdb
    ensures Expanded(0x0183fc00, 0x61626380, 0x00000000, 0x00000000) == 0xe2e2c38e
    ensures Expanded(0x12dcbfdb, 0x000f0000, 0x00000000, 0x00000000) == 0xc8215c1a
    ensures Expanded(0xe2e2c38e, 0x7da86405, 0x00000000, 0x00000000) == 0xb73679a2
    ensures Expanded(0xc8215c1a, 0x600003c6, 0x00000000, 0x00000000) == 0xe5bc3909
    ensures Expanded(0xb73679a2, 0x3e9d7b78, 0x00000000, 0x00000000) == 0x32663c5b
    ensures Expanded(0xe5bc3909, 0x0183fc00, 0x00000000, 0x00000000) == 0x9d209d67
    ensures Expanded(0x32663c5b, 0x12dcbfdb, 0x00000000, 0x00000000) == 0xec8726cb
    ensures Expanded(0x9d209d67, 0xe2e2c38e, 0x00000018, 0x00000000) == 0x702138a4
    ensures Expanded(0xec8726cb, 0xc8215c1a, 0x61626380, 0x00000018) == 0xd3b7973b
  {
  }

  lemma {:induction false} Expansions32()
    ensures Expanded(0x702138a4, 0xb73679a2, 0x000f0000, 0x61626380) == 0x93f5997f
    ensures Expanded(0xd3b7973b, 0xe5bc3909, 0x7da86405, 0x000f0000) == 0x3b68ba73
    ensures Expanded(0x93f5997f, 0x32663c5b, 0x600003c6, 0x7da86405) == 0xaff4ffc1
    ensures Expanded(0x3b68ba73, 0x9d209d67, 0x3e9d7b78, 0x600003c6) == 0xf10a5c62
    ensures Expanded(0xaff4ffc1, 0xec8726cb, 0x0183fc00, 0x3e9d7b78) == 0x0a8b3996
    ensures Expanded(0xf10a5c62, 0x702138a4, 0x12dcbfdb, 0x0183fc00) == 0x72af830a
    ensures Expanded(0x0a8b3996, 0xd3b7973b, 0xe2e2c38e, 0x12dcbfdb) == 0x9409e33e
    ensures Expanded(0x72af830a, 0x93f5997f, 0xc8215c1a, 0xe2e2c38e) == 0x24641522
    ensures Expanded(0x9409e33e, 0x3b68ba73, 0xb73679a2, 0xc8215c1a) == 0x9f47bf94
    ensures Expanded(0x24641522, 0xaff4ffc1, 0xe5bc3909, 0xb73679a2) == 0xf0a64f5a
    ensures Expanded(0x9f47bf94, 0xf10a5c62, 0x32663c5b, 0xe5bc3909) == 0x3e246a79
    ensures Expanded(0xf0a64f5a, 0x0a8b3996, 0x9d209d67, 0x32663c5b) == 0x27333ba3
    ensures Expanded(0x3e246a79, 0x72af830a, 0xec8726cb, 0x9d209d67) == 0x0c4763f2
    ensures Expanded(0x27333ba3, 0x9409e33e, 0x702138a4, 0xec8726cb) == 0x840abf27
    ensures Expanded(0x0c4763f2, 0x24641522, 0xd3b7973b, 0x702138a4) == 0x7a290d5d
    ensures Expanded(0x840abf27, 0x9f47bf94, 0x93f5997f, 0xd3b7973b) == 0x065c43da
  {
  }

  lemma {:induction false} Expansions48()
    ensures Expanded(0x7a290d5d, 0xf0a64f5a, 0x3b68ba73, 0x93f5997f) == 0xfb3e89cb
    ensures Expanded(0x065c43da, 0x3e246a79, 0xaff4ffc1, 0x3b68ba73) == 0xcc7617db
    ensures Expanded(0xfb3e89cb, 0x27333ba3, 0xf10a5c62, 0xaff4ffc1) == 0xb9e66c34
    ensures Expanded(0xcc7617db, 0x0c4763f2, 0x0a8b3996, 0xf10a5c62) == 0xa9993667
    ensures Expanded(0xb9e66c34, 0x840abf27, 0x72af830a, 0x0a8b3996) == 0x84badedd
    ensures Expanded(0xa9993667, 0x7a290d5d, 0x9409e33e, 0x72af830a) == 0xc21462bc
    ensures Expanded(0x84badedd, 0x065c43da, 0x24641522, 0x9409e33e) == 0x1487472c
    ensures Expanded(0xc21462bc, 0xfb3e89cb, 0x9f47bf94, 0x24641522) == 0xb20f7a99
    ensures Expanded(0x1487472c, 0xcc7617db, 0xf0a64f5a, 0x9f47bf94) == 0xef57b9cd
    ensures Expanded(0xb20f7a99, 0xb9e66c34, 0x3e246a79, 0xf0a64f5a) == 0xebe6b238
    ensures Expanded(0xef57b9cd, 0xa9993667, 0x27333ba3, 0x3e246a79) == 0x9fe3095e
    ensures Expanded(0xebe6b238, 0x84badedd, 0x0c4763f2, 0x27333ba3) == 0x78bc8d4b
    ensures Expanded(0x9fe3095e, 0xc21462bc, 0x840abf27, 0x0c4763f2) == 0xa43fcf15
    ensures Expanded(0x78bc8d4b, 0x1487472c, 0x7a290d5d, 0x840abf27) == 0x668b2ff8
    ensures Expanded(0xa43fcf15, 0xb20f7a99, 0x065c43da, 0x7a290d5d) == 0xeeaba2cc
    ensures Expanded(0x668b2ff8, 0xef57b9cd, 0xfb3e89cb, 0x065c43da) == 0x12b1edeb
  {
  }

  lemma {:induction false} FirstWords(b: seq<u8>, t: nat)
    requires HoldsAbc(b) && t < 16
    ensures Schedule(b, t) == if t == 0 then 0x61626380 else if t < 15 then 0 else 24
  {
    hide WordAt;
    ScheduleStart(b, t);
    BlockWords(b, t);
  }

  lemma {:induction false} Words0(b: seq<u8>)
    requires |b| == 64 && HoldsAbc(b)
    ensures Schedule(b, 0) == 0x61626380 && Schedule(b, 1) == 0x00000000
    ensures Schedule(b, 2) == 0x00000000 && Schedule(b, 3) == 0x00000000
    ensures Schedule(b, 4) == 0x00000000 && Schedule(b, 5) == 0x00000000
    ensures Schedule(b, 6) == 0x00000000 && Schedule(b, 7) == 0x00000000
  {
    hide HoldsAbc, Schedule;
    FirstWords(b, 0); FirstWords(b, 1); FirstWords(b, 2); FirstWords(b, 3);
    FirstWords(b, 4); FirstWords(b, 5); FirstWords(b, 6); FirstWords(b, 7);
  }

  lemma {:induction false} Words8(b: seq<u8>)
    requires |b| == 64 && HoldsAbc(b)
    ensures Schedule(b, 8) == 0x00000000 && Schedule(b, 9) == 0x00000000
    ensures Schedule(b, 10) == 0x00000000 && Schedule(b, 11) == 0x00000000
    ensures Schedule(b, 12) == 0x00000000 && Schedule(b, 13) == 0x00000000
    ensures Schedule(b, 14) == 0x00000000 && Schedule(b, 15) == 0x00000018
  {
    hide HoldsAbc, Schedule;
    FirstWords(b, 8); FirstWords(b, 9); FirstWords(b, 10); FirstWords(b, 11);
    FirstWords(b, 12); FirstWords(b, 13); FirstWords(b, 14); FirstWords(b, 15);
  }

  lemma {:induction false} Words16(b: seq<u8>)
    requires |b| == 64 && HoldsAbc(b)
    ensures Schedule(b, 16) == 0x61626380 && Schedule(b, 17) == 0x000f0000
    ensures Schedule(b, 18) == 0x7da86405 && Schedule(b, 19) == 0x600003c6
    ensures Schedule(b, 20) == 0x3e9d7b78 && Schedule(b, 21) == 0x0183fc00
    ensures Schedule(b, 22) == 0x12dcbfdb && Schedule(b, 23) == 0xe2e2c38e
    ensures Schedule(b, 24) == 0xc8215c1a && Schedule(b, 25) == 0xb73679a2
    ensures Schedule(b, 26) == 0xe5bc3909 && Schedule(b, 27) == 0x32663c5b
    ensures Schedule(b, 28) == 0x9d209d67 && Schedule(b, 29) == 0xec8726cb
    ensures Schedule(b, 30) == 0x702138a4 && Schedule(b, 31) == 0xd3b7973b
  {
    hide HoldsAbc, Schedule, Expanded;
    Words0(b);
    Words8(b);
    Expansions16();
    ScheduleNext(b, 16); ScheduleNext(b, 17); ScheduleNext(b, 18); ScheduleNext(b, 19);
    ScheduleNext(b, 20); ScheduleNext(b, 21); ScheduleNext(b, 22); ScheduleNext(b, 23);
    ScheduleNext(b, 24); ScheduleNext(b, 25); ScheduleNext(b, 26); ScheduleNext(b, 27);
    ScheduleNext(b, 28); ScheduleNext(b, 29); ScheduleNext(b, 30); ScheduleNext(b, 31);
  }

  lemma {:induction false} Words32(b: seq<u8>)
    requires |b| == 64 && HoldsAbc(b)
    ensures Schedule(b, 32) == 0x93f5997f && Schedule(b, 33) == 0x3b68ba73
    ensures Schedule(b, 34) == 0xaff4ffc1 && Schedule(b, 35) == 0xf10a5c62
    ensures Schedule(b, 36) == 0x0a8b3996 && Schedule(b, 37) == 0x72af830a
    ensures Schedule(b, 38) == 0x9409e33e && Schedule(b, 39) == 0x24641522
    ensures Schedule(b, 40) == 0x9f47bf94 && Schedule(b, 41) == 0xf0a64f5a
    ensures Schedule(b, 42) == 0x3e246a79 && Schedule(b, 43) == 0x27333ba3
    ensures Schedule(b, 44) == 0x0c4763f2 && Schedule(b, 45) == 0x840abf27
    ensures Schedule(b, 46) == 0x7a290d5d && Schedule(b, 47) == 0x065c43da
  {
    hide HoldsAbc, Schedule, Expanded;
    Words0(b);
    Words8(b);
    Words16(b);
    Expansions32();
    ScheduleNext(b, 32); ScheduleNext(b, 33); ScheduleNext(b, 34); ScheduleNext(b, 35);
    ScheduleNext(b, 36); ScheduleNext(b, 37); ScheduleNext(b, 38); ScheduleNext(b, 39);
    ScheduleNext(b, 40); ScheduleNext(b, 41); ScheduleNext(b, 42); ScheduleNext(b, 43);
    ScheduleNext(b, 44); ScheduleNext(b, 45); ScheduleNext(b, 46); ScheduleNext(b, 47);
  }

  lemma {:induction false} Words48(b: seq<u8>)
    requires |b| == 64 && HoldsAbc(b)
    ensures Schedule(b, 48) == 0xfb3e89cb && Schedule(b, 49) == 0xcc7617db
    ensures Schedule(b, 50) == 0xb9e66c34 && Schedule(b, 51) == 0xa9993667
    ensures Schedule(b, 52) == 0x84badedd && Schedule(b, 53) == 0xc21462bc
    ensures Schedule(b, 54) == 0x1487472c && Schedule(b, 55) == 0xb20f7a99
    ensures Schedule(b, 56) == 0xef57b9cd && Schedule(b, 57) == 0xebe6b238
    ensures Schedule(b, 58) == 0x9fe3095e && Schedule(b, 59) == 0x78bc8d4b
    ensures Schedule(b, 60) == 0xa43fcf15 && Schedule(b, 61) == 0x668b2ff8
    ensures Schedule(b, 62) == 0xeeaba2cc && Schedule(b, 63) == 0x12b1edeb
  {
    hide HoldsAbc, Schedule, Expanded;
    Words0(b);
    Words8(b);
    Words16(b);
    Words32(b);
    Expansions48();
    ScheduleNext(b, 48); ScheduleNext(b, 49); ScheduleNext(b, 50); ScheduleNext(b, 51);
    ScheduleNext(b, 52); ScheduleNext(b, 53); ScheduleNext(b, 54); ScheduleNext(b, 55);
    ScheduleNext(b, 56); ScheduleNext(b, 57); ScheduleNext(b, 58); ScheduleNext(b, 59);
    ScheduleNext(b, 60); ScheduleNext(b, 61); ScheduleNext(b, 62); ScheduleNext(b, 63);
  }

  // ---- The working variables before each round ----

  const V0 := Working(0x6a09e667, 0xbb67ae85, 0x3c6ef372, 0xa54ff53a, 0x510e527f, 0x9b05688c, 0x1f83d9ab, 0x5be0cd19)
  const V1 := Working(0x5d6aebcd, 0x6a09e667, 0xbb67ae85, 0x3c6ef372, 0xfa2a4622, 0x510e527f, 0x9b05688c, 0x1f83d9ab)
  const V2 := Working(0x5a6ad9ad, 0x5d6aebcd, 0x6a09e667, 0xbb67ae85, 0x78ce7989, 0xfa2a4622, 0x510e527f, 0x9b05688c)
  const V3 := Working(0xc8c347a7, 0x5a6ad9ad, 0x5d6aebcd, 0x6a09e667, 0xf92939eb, 0x78ce7989, 0xfa2a4622, 0x510e527f)
  const V4 := Working(0xd550f666, 0xc8c347a7, 0x5a6ad9ad, 0x5d6aebcd, 0x24e00850, 0xf92939eb, 0x78ce7989, 0xfa2a4622)
  const V5 := Working(0x04409a6a, 0xd550f666, 0xc8c347a7, 0x5a6ad9ad, 0x43ada245, 0x24e00850, 0xf92939eb, 0x78ce7989)
  const V6 := Working(0x2b4209f5, 0x04409a6a, 0xd550f666, 0xc8c347a7, 0x714260ad, 0x43ada245, 0x24e00850, 0xf92939eb)
  const V7 := Working(0xe5030380, 0x2b4209f5, 0x04409a6a, 0xd550f666, 0x9b27a401, 0x714260ad, 0x43ada245, 0x24e00850)
  const V8 := Working(0x85a07b5f, 0xe5030380, 0x2b4209f5, 0x04409a6a, 0x0c657a79, 0x9b27a401, 0x714260ad, 0x43ada245)
  const V9 := Working(0x8e04ecb9, 0x85a07b5f, 0xe5030380, 0x2b4209f5, 0x32ca2d8c, 0x0c657a79, 0x9b27a401, 0x714260ad)
  const V10 := Working(0x8c87346b, 0x8e04ecb9, 0x85a07b5f, 0xe5030380, 0x1cc92596, 0x32ca2d8c, 0x0c657a79, 0x9b27a401)
  const V11 := Working(0x4798a3f4, 0x8c87346b, 0x8e04ecb9, 0x85a07b5f, 0x436b23e8, 0x1cc92596, 0x32ca2d8c, 0x0c657a79)
  const V12 := Working(0xf71fc5a9, 0x4798a3f4, 0x8c87346b, 0x8e04ecb9, 0x816fd6e9, 0x436b23e8, 0x1cc92596, 0x32ca2d8c)
  const V13 := Working(0x87912990, 0xf71fc5a9, 0x4798a3f4, 0x8c87346b, 0x1e578218, 0x816fd6e9, 0x436b23e8, 0x1cc92596)
  const V14 := Working(0xd932eb16, 0x87912990, 0xf71fc5a9, 0x4798a3f4, 0x745a48de, 0x1e578218, 0x816fd6e9, 0x436b23e8)
  const V15 := Working(0xc0645fde, 0xd932eb16, 0x87912990, 0xf71fc5a9, 0x0b92f20c, 0x745a48de, 0x1e578218, 0x816fd6e9)
  const V16 := Working(0xb0fa238e, 0xc0645fde, 0xd932eb16, 0x87912990, 0x07590dcd, 0x0b92f20c, 0x745a48de, 0x1e578218)
  const V17 := Working(0x21da9a9b, 0xb0fa238e, 0xc0645fde, 0xd932eb16, 0x8034229c, 0x07590dcd, 0x0b92f20c, 0x745a48de)
  const V18 := Working(0xc2fbd9d1, 0x21da9a9b, 0xb0fa238e, 0xc0645fde, 0x846ee454, 0x8034229c, 0x07590dcd, 0x0b92f20c)
  const V19 := Working(0xfe777bbf, 0xc2fbd9d1, 0x21da9a9b, 0xb0fa238e, 0xcc899961, 0x846ee454, 0x8034229c, 0x07590dcd)
  const V20 := Working(0xe1f20c33, 0xfe777bbf, 0xc2fbd9d1, 0x21da9a9b, 0xb0638179, 0xcc899961, 0x846ee454, 0x8034229c)
  const V21 := Working(0x9dc68b63, 0xe1f20c33, 0xfe777bbf, 0xc2fbd9d1, 0x8ada8930, 0xb0638179, 0xcc899961, 0x846ee454)
  const V22 := Working(0xc2606d6d, 0x9dc68b63, 0xe1f20c33, 0xfe777bbf, 0xe1257970, 0x8ada8930, 0xb0638179, 0xcc899961)
  const V23 := Working(0xa7a3623f, 0xc2606d6d, 0x9dc68b63, 0xe1f20c33, 0x49f5114a, 0xe1257970, 0x8ada8930, 0xb0638179)
  const V24 := Working(0xc5d53d8d, 0xa7a3623f, 0xc2606d6d, 0x9dc68b63, 0xaa47c347, 0x49f5114a, 0xe1257970, 0x8ada8930)
  const V25 := Working(0x1c2c2838, 0xc5d53d8d, 0xa7a3623f, 0xc2606d6d, 0x2823ef91, 0xaa47c347, 0x49f5114a, 0xe1257970)
  const V26 := Working(0xcde8037d, 0x1c2c2838, 0xc5d53d8d, 0xa7a3623f, 0x14383d8e, 0x2823ef91, 0xaa47c347, 0x49f5114a)
  const V27 := Working(0xb62ec4bc, 0xcde8037d, 0x1c2c2838, 0xc5d53d8d, 0xc74c6516, 0x14383d8e, 0x2823ef91, 0xaa47c347)
  const V28 := Working(0x77d37528, 0xb62ec4bc, 0xcde8037d, 0x1c2c2838, 0xedffbff8, 0xc74c6516, 0x14383d8e, 0x2823ef91)
  const V29 := Working(0x363482c9, 0x77d37528, 0xb62ec4bc, 0xcde8037d, 0x6112a3b7, 0xedffbff8, 0xc74c6516, 0x14383d8e)
  const V30 := Working(0xa0060b30, 0x363482c9, 0x77d37528, 0xb62ec4bc, 0xade79437, 0x6112a3b7, 0xedffbff8, 0xc74c6516)
  const V31 := Working(0xea992a22, 0xa0060b30, 0x363482c9, 0x77d37528, 0x0109ab3a, 0xade79437, 0x6112a3b7, 0xedffbff8)
  const V32 := Working(0x73b33bf5, 0xea992a22, 0xa0060b30, 0x363482c9, 0xba591112, 0x0109ab3a, 0xade79437, 0x6112a3b7)
  const V33 := Working(0x98e12507, 0x73b33bf5, 0xea992a22, 0xa0060b30, 0x9cd9f5f6, 0xba591112, 0x0109ab3a, 0xade79437)
  const V34 := Working(0xfe604df5, 0x98e12507, 0x73b33bf5, 0xea992a22, 0x59249dd3, 0x9cd9f5f6, 0xba591112, 0x0109ab3a)
  const V35 := Working(0xa9a7738c, 0xfe604df5, 0x98e12507, 0x73b33bf5, 0x085f3833, 0x59249dd3, 0x9cd9f5f6, 0xba591112)
  const V36 := Working(0x65a0cfe4, 0xa9a7738c, 0xfe604df5, 0x98e12507, 0xf4b002d6, 0x085f3833, 0x59249dd3, 0x9cd9f5f6)
  const V37 := Working(0x41a65cb1, 0x65a0cfe4, 0xa9a7738c, 0xfe604df5, 0x0772a26b, 0xf4b002d6, 0x085f3833, 0x59249dd3)
  const V38 := Working(0x34df1604, 0x41a65cb1, 0x65a0cfe4, 0xa9a7738c, 0xa507a53d, 0x0772a26b, 0xf4b002d6, 0x085f3833)
  const V39 := Working(0x6dc57a8a, 0x34df1604, 0x41a65cb1, 0x65a0cfe4, 0xf0781bc8, 0xa507a53d, 0x0772a26b, 0xf4b002d6)
  const V40 := Working(0x79ea687a, 0x6dc57a8a, 0x34df1604, 0x41a65cb1, 0x1efbc0a0, 0xf0781bc8, 0xa507a53d, 0x0772a26b)
  const V41 := Working(0xd6670766, 0x79ea687a, 0x6dc57a8a, 0x34df1604, 0x26352d63, 0x1efbc0a0, 0xf0781bc8, 0xa507a53d)
  const V42 := Working(0xdf46652f, 0xd6670766, 0x79ea687a, 0x6dc57a8a, 0x838b2711, 0x26352d63, 0x1efbc0a0, 0xf0781bc8)
  const V43 := Working(0x17aa0dfe, 0xdf46652f, 0xd6670766, 0x79ea687a, 0xdecd4715, 0x838b2711, 0x26352d63, 0x1efbc0a0)
  const V44 := Working(0x9d4baf93, 0x17aa0dfe, 0xdf46652f, 0xd6670766, 0xfda24c2e, 0xdecd4715, 0x838b2711, 0x26352d63)
  const V45 := Working(0x26628815, 0x9d4baf93, 0x17aa0dfe, 0xdf46652f, 0xa80f11f0, 0xfda24c2e, 0xdecd4715, 0x838b2711)
  const V46 := Working(0x72ab4b91, 0x26628815, 0x9d4baf93, 0x17aa0dfe, 0xb7755da1, 0xa80f11f0, 0xfda24c2e, 0xdecd4715)
  const V47 := Working(0xa14c14b0, 0x72ab4b91, 0x26628815, 0x9d4baf93, 0xd57b94a9, 0xb7755da1, 0xa80f11f0, 0xfda24c2e)
  const V48 := Working(0x4172328d, 0xa14c14b0, 0x72ab4b91, 0x26628815, 0xfecf0bc6, 0xd57b94a9, 0xb7755da1, 0xa80f11f0)
  const V49 := Working(0x05757ceb, 0x4172328d, 0xa14c14b0, 0x72ab4b91, 0xbd714038, 0xfecf0bc6, 0xd57b94a9, 0xb7755da1)
  const V50 := Working(0xf11bfaa8, 0x05757ceb, 0x4172328d, 0xa14c14b0, 0x6e5c390c, 0xbd714038, 0xfecf0bc6, 0xd57b94a9)
  const V51 := Working(0x7a0508a1, 0xf11bfaa8, 0x05757ceb, 0x4172328d, 0x52f1ccf7, 0x6e5c390c, 0xbd714038, 0xfecf0bc6)
  const V52 := Working(0x886e7a22, 0x7a0508a1, 0xf11bfaa8, 0x05757ceb, 0x49231c1e, 0x52f1ccf7, 0x6e5c390c, 0xbd714038)
  const V53 := Working(0x101fd28f, 0x886e7a22, 0x7a0508a1, 0xf11bfaa8, 0x529e7d00, 0x49231c1e, 0x52f1ccf7, 0x6e5c390c)
  const V54 := Working(0xf5702fdb, 0x101fd28f, 0x886e7a22, 0x7a0508a1, 0x9f4787c3, 0x529e7d00, 0x49231c1e, 0x52f1ccf7)
  const V55 := Working(0x3ec45cdb, 0xf5702fdb, 0x101fd28f, 0x886e7a22, 0xe50e1b4f, 0x9f4787c3, 0x529e7d00, 0x49231c1e)
  const V56 := Working(0x38cc9913, 0x3ec45cdb, 0xf5702fdb, 0x101fd28f, 0x54cb266b, 0xe50e1b4f, 0x9f4787c3, 0x529e7d00)
  const V57 := Working(0xfcd1887b, 0x38cc9913, 0x3ec45cdb, 0xf5702fdb, 0x9b5e906c, 0x54cb266b, 0xe50e1b4f, 0x9f4787c3)
  const V58 := Working(0xc062d46f, 0xfcd1887b, 0x38cc9913, 0x3ec45cdb, 0x7e44008e, 0x9b5e906c, 0x54cb266b, 0xe50e1b4f)
  const V59 := Working(0xffb70472, 0xc062d46f, 0xfcd1887b, 0x38cc9913, 0x6d83bfc6, 0x7e44008e, 0x9b5e906c, 0x54cb266b)
  const V60 := Working(0xb6ae8fff, 0xffb70472, 0xc062d46f, 0xfcd1887b, 0xb21bad3d, 0x6d83bfc6, 0x7e44008e, 0x9b5e906c)
  const V61 := Working(0xb85e2ce9, 0xb6ae8fff, 0xffb70472, 0xc062d46f, 0x961f4894, 0xb21bad3d, 0x6d83bfc6, 0x7e44008e)
  const V62 := Working(0x04d24d6c, 0xb85e2ce9, 0xb6ae8fff, 0xffb70472, 0x948d25b6, 0x961f4894, 0xb21bad3d, 0x6d83bfc6)
  const V63 := Working(0xd39a2165, 0x04d24d6c, 0xb85e2ce9, 0xb6ae8fff, 0xfb121210, 0x948d25b6, 0x961f4894, 0xb21bad3d)
  const V64 := Working(0x506e3058, 0xd39a2165, 0x04d24d6c, 0xb85e2ce9, 0x5ef50f24, 0xfb121210, 0x948d25b6, 0x961f4894)

  lemma {:induction false} Steps0()
    ensures Round(V0, 0x428a2f98, 0x61626380) == V1
    ensures Round(V1, 0x71374491, 0x00000000) == V2
    ensures Round(V2, 0xb5c0fbcf, 0x00000000) == V3
    ensures Round(V3, 0xe9b5dba5, 0x00000000) == V4
    ensures Round(V4, 0x3956c25b, 0x00000000) == V5
    ensures Round(V5, 0x59f111f1, 0x00000000) == V6
    ensures Round(V6, 0x923f82a4, 0x00000000) == V7
    ensures Round(V7, 0xab1c5ed5, 0x00000000) == V8
  {
  }

  lemma {:induction false} Steps8()
    ensures Round(V8, 0xd807aa98, 0x00000000) == V9
    ensures Round(V9, 0x12835b01, 0x00000000) == V10
    ensures Round(V10, 0x243185be, 0x00000000) == V11
    ensures Round(V11, 0x550c7dc3, 0x00000000) == V12
    ensures Round(V12, 0x72be5d74, 0x00000000) == V13
    ensures Round(V13, 0x80deb1fe, 0x00000000) == V14
    ensures Round(V14, 0x9bdc06a7, 0x00000000) == V15
    ensures Round(V15, 0xc19bf174, 0x00000018) == V16
  {
  }

  lemma {:induction false} Steps16()
    ensures Round(V16, 0xe49b69c1, 0x61626380) == V17
    ensures Round(V17, 0xefbe4786, 0x000f0000) == V18
    ensures Round(V18, 0x0fc19dc6, 0x7da86405) == V19
    ensures Round(V19, 0x240ca1cc, 0x600003c6) == V20
    ensures Round(V20, 0x2de92c6f, 0x3e9d7b78) == V21
    ensures Round(V21, 0x4a7484aa, 0x0183fc00) == V22
    ensures Round(V22, 0x5cb0a9dc, 0x12dcbfdb) == V23
    ensures Round(V23, 0x76f988da, 0xe2e2c38e) == V24
  {
  }

  lemma {:induction false} Steps24()
    ensures Round(V24, 0x983e5152, 0xc8215c1a) == V25
    ensures Round(V25, 0xa831c66d, 0xb73679a2) == V26
    ensures Round(V26, 0xb00327c8, 0xe5bc3909) == V27
    ensures Round(V27, 0xbf597fc7, 0x32663c5b) == V28
    ensures Round(V28, 0xc6e00bf3, 0x9d209d67) == V29
    ensures Round(V29, 0xd5a79147, 0xec8726cb) == V30
    ensures Round(V30, 0x06ca6351, 0x702138a4) == V31
    ensures Round(V31, 0x14292967, 0xd3b7973b) == V32
  {
  }

  lemma {:induction false} Steps32()
    ensures Round(V32, 0x27b70a85, 0x93f5997f) == V33
    ensures Round(V33, 0x2e1b2138, 0x3b68ba73) == V34
    ensures Round(V34, 0x4d2c6dfc, 0xaff4ffc1) == V35
    ensures Round(V35, 0x53380d13, 0xf10a5c62) == V36
    ensures Round(V36, 0x650a7354, 0x0a8b3996) == V37
    ensures Round(V37, 0x766a0abb, 0x72af830a) == V38
    ensures Round(V38, 0x81c2c92e, 0x9409e33e) == V39
    ensures Round(V39, 0x92722c85, 0x24641522) == V40
  {
  }

  lemma {:induction false} Steps40()
    ensures Round(V40, 0xa2bfe8a1, 0x9f47bf94) == V41
    ensures Round(V41, 0xa81a664b, 0xf0a64f5a) == V42
    ensures Round(V42, 0xc24b8b70, 0x3e246a79) == V43
    ensures Round(V43, 0xc76c51a3, 0x27333ba3) == V44
    ensures Round(V44, 0xd192e819, 0x0c4763f2) == V45
    ensures Round(V45, 0xd6990624, 0x840abf27) == V46
    ensures Round(V46, 0xf40e3585, 0x7a290d5d) == V47
    ensures Round(V47, 0x106aa070, 0x065c43da) == V48
  {
  }

  lemma {:induction false} Steps48()
    ensures Round(V48, 0x19a4c116, 0xfb3e89cb) == V49
    ensures Round(V49, 0x1e376c08, 0xcc7617db) == V50
    ensures Round(V50, 0x2748774c, 0xb9e66c34) == V51
    ensures Round(V51, 0x34b0bcb5, 0xa9993667) == V52
    ensures Round(V52, 0x391c0cb3, 0x84badedd) == V53
    ensures Round(V53, 0x4ed8aa4a, 0xc21462bc) == V54
    ensures Round(V54, 0x5b9cca4f, 0x1487472c) == V55
    ensures Round(V55, 0x682e6ff3, 0xb20f7a99) == V56
  {
  }

  lemma {:induction false} Steps56()
    ensures Round(V56, 0x748f82ee, 0xef57b9cd) == V57
    ensures Round(V57, 0x78a5636f, 0xebe6b238) == V58
    ensures Round(V58, 0x84c87814, 0x9fe3095e) == V59
    ensures Round(V59, 0x8cc70208, 0x78bc8d4b) == V60
    ensures Round(V60, 0x90befffa, 0xa43fcf15) == V61
    ensures Round(V61, 0xa4506ceb, 0x668b2ff8) == V62
    ensures Round(V62, 0xbef9a3f7, 0xeeaba2cc) == V63
    ensures Round(V63, 0xc67178f2, 0x12b1edeb) == V64
  {
  }

  lemma {:induction false} Constants0()
    ensures Constant(0) == 0x428a2f98 && Constant(1) == 0x71374491
    ensures Constant(2) == 0xb5c0fbcf && Constant(3) == 0xe9b5dba5
    ensures Constant(4) == 0x3956c25b && Constant(5) == 0x59f111f1
    ensures Constant(6) == 0x923f82a4 && Constant(7) == 0xab1c5ed5
  {
  }

  lemma {:induction false} Constants8()
    ensures Constant(8) == 0xd807aa98 && Constant(9) == 0x12835b01
    ensures Constant(10) == 0x243185be && Constant(11) == 0x550c7dc3
    ensures Constant(12) == 0x72be5d74 && Constant(13) == 0x80deb1fe
    ensures Constant(14) == 0x9bdc06a7 && Constant(15) == 0xc19bf174
  {
  }

  lemma {:induction false} Constants16()
    ensures Constant(16) == 0xe49b69c1 && Constant(17) == 0xefbe4786
    ensures Constant(18) == 0x0fc19dc6 && Constant(19) == 0x240ca1cc
    ensures Constant(20) == 0x2de92c6f && Constant(21) == 0x4a7484aa
    ensures Constant(22) == 0x5cb0a9dc && Constant(23) == 0x76f988da
  {
  }

  lemma {:induction false} Constants24()
    ensures Constant(24) == 0x983e5152 && Constant(25) == 0xa831c66d
    ensures Constant(26) == 0xb00327c8 && Constant(27) == 0xbf597fc7
    ensures Constant(28) == 0xc6e00bf3 && Constant(29) == 0xd5a79147
    ensures Constant(30) == 0x06ca6351 && Constant(31) == 0x14292967
  {
  }

  lemma {:induction false} Constants32()
    ensures Constant(32) == 0x27b70a85 && Constant(33) == 0x2e1b2138
    ensures Constant(34) == 0x4d2c6dfc && Constant(35) == 0x53380d13
    ensures Constant(36) == 0x650a7354 && Constant(37) == 0x766a0abb
    ensures Constant(38) == 0x81c2c92e && Constant(39) == 0x92722c85
  {
  }

  lemma {:induction false} Constants40()
    ensures Constant(40) == 0xa2bfe8a1 && Constant(41) == 0xa81a664b
    ensures Constant(42) == 0xc24b8b70 && Constant(43) == 0xc76c51a3
    ensures Constant(44) == 0xd192e819 && Constant(45) == 0xd6990624
    ensures Constant(46) == 0xf40e3585 && Constant(47) == 0x106aa070
  {
  }

  lemma {:induction false} Constants48()
    ensures Constant(48) == 0x19a4c116 && Constant(49) == 0x1e376c08
    ensures Constant(50) == 0x2748774c && Constant(51) == 0x34b0bcb5
    ensures Constant(52) == 0x391c0cb3 && Constant(53) == 0x4ed8aa4a
    ensures Constant(54) == 0x5b9cca4f && Constant(55) == 0x682e6ff3
  {
  }

  lemma {:induction false} Constants56()
    ensures Constant(56) == 0x748f82ee && Constant(57) == 0x78a5636f
    ensures Constant(58) == 0x84c87814 && Constant(59) == 0x8cc70208
    ensures Constant(60) == 0x90befffa && Constant(61) == 0xa4506ceb
    ensures Constant(62) == 0xbef9a3f7 && Constant(63) == 0xc67178f2
  {
  }

  lemma {:induction false} Rounds0(b: seq<u8>)
    requires |b| == 64 && HoldsAbc(b)
    ensures Rounds(Initial(), b, 8) == V8
  {
    hide HoldsAbc, Schedule, Constant, Round, Rounds, Loaded;
    RoundsBegin(b);
    Words0(b);
    Constants0();
    Steps0();
    RoundsNext(Initial(), b, 0); RoundsNext(Initial(), b, 1);
    RoundsNext(Initial(), b, 2); RoundsNext(Initial(), b, 3);
    RoundsNext(Initial(), b, 4); RoundsNext(Initial(), b, 5);
    RoundsNext(Initial(), b, 6); RoundsNext(Initial(), b, 7);
  }

  lemma {:induction false} Rounds8(b: seq<u8>)
    requires |b| == 64 && HoldsAbc(b)
    ensures Rounds(Initial(), b, 16) == V16
  {
    hide HoldsAbc, Schedule, Constant, Round, Rounds, Loaded;
    Rounds0(b);
    Words8(b);
    Constants8();
    Steps8();
    RoundsNext(Initial(), b, 8); RoundsNext(Initial(), b, 9);
    RoundsNext(Initial(), b, 10); RoundsNext(Initial(), b, 11);
    RoundsNext(Initial(), b, 12); RoundsNext(Initial(), b, 13);
    RoundsNext(Initial(), b, 14); RoundsNext(Initial(), b, 15);
  }

  lemma {:induction false} Rounds16(b: seq<u8>)
    requires |b| == 64 && HoldsAbc(b)
    ensures Rounds(Initial(), b, 24) == V24
  {
    hide HoldsAbc, Schedule, Constant, Round, Rounds, Loaded;
    Rounds8(b);
    Words16(b);
    Constants16();
    Steps16();
    RoundsNext(Initial(), b, 16); RoundsNext(Initial(), b, 17);
    RoundsNext(Initial(), b, 18); RoundsNext(Initial(), b, 19);
    RoundsNext(Initial(), b, 20); RoundsNext(Initial(), b, 21);
    RoundsNext(Initial(), b, 22); RoundsNext(Initial(), b, 23);
  }

  lemma {:induction false} Rounds24(b: seq<u8>)
    requires |b| == 64 && HoldsAbc(b)
    ensures Rounds(Initial(), b, 32) == V32
  {
    hide HoldsAbc, Schedule, Constant, Round, Rounds, Loaded;
    Rounds16(b);
    Words16(b);
    Constants24();
    Steps24();
    RoundsNext(Initial(), b, 24); RoundsNext(Initial(), b, 25);
    RoundsNext(Initial(), b, 26); RoundsNext(Initial(), b, 27);
    RoundsNext(Initial(), b, 28); RoundsNext(Initial(), b, 29);
    RoundsNext(Initial(), b, 30); RoundsNext(Initial(), b, 31);
  }

  lemma {:induction false} Rounds32(b: seq<u8>)
    requires |b| == 64 && HoldsAbc(b)
    ensures Rounds(Initial(), b, 40) == V40
  {
    hide HoldsAbc, Schedule, Constant, Round, Rounds, Loaded;
    Rounds24(b);
    Words32(b);
    Constants32();
    Steps32();
    RoundsNext(Initial(), b, 32); RoundsNext(Initial(), b, 33);
    RoundsNext(Initial(), b, 34); RoundsNext(Initial(), b, 35);
    RoundsNext(Initial(), b, 36); RoundsNext(Initial(), b, 37);
    RoundsNext(Initial(), b, 38); RoundsNext(Initial(), b, 39);
  }

  lemma {:induction false} Rounds40(b: seq<u8>)
    requires |b| == 64 && HoldsAbc(b)
    ensures Rounds(Initial(), b, 48) == V48
  {
    hide HoldsAbc, Schedule, Constant, Round, Rounds, Loaded;
    Rounds32(b);
    Words32(b);
    Constants40();
    Steps40();
    RoundsNext(Initial(), b, 40); RoundsNext(Initial(), b, 41);
    RoundsNext(Initial(), b, 42); RoundsNext(Initial(), b, 43);
    RoundsNext(Initial(), b, 44); RoundsNext(Initial(), b, 45);
    RoundsNext(Initial(), b, 46); RoundsNext(Initial(), b, 47);
  }

  lemma {:induction false} Rounds48(b: seq<u8>)
    requires |b| == 64 && HoldsAbc(b)
    ensures Rounds(Initial(), b, 56) == V56
  {
    hide HoldsAbc, Schedule, Constant, Round, Rounds, Loaded;
    Rounds40(b);
    Words48(b);
    Constants48();
    Steps48();
    RoundsNext(Initial(), b, 48); RoundsNext(Initial(), b, 49);
    RoundsNext(Initial(), b, 50); RoundsNext(Initial(), b, 51);
    RoundsNext(Initial(), b, 52); RoundsNext(Initial(), b, 53);
    RoundsNext(Initial(), b, 54); RoundsNext(Initial(), b, 55);
  }

  lemma {:induction false} Rounds56(b: seq<u8>)
    requires |b| == 64 && HoldsAbc(b)
    ensures Rounds(Initial(), b, 64) == V64
  {
    hide HoldsAbc, Schedule, Constant, Round, Rounds, Loaded;
    Rounds48(b);
    Words48(b);
    Constants56();
    Steps56();
    RoundsNext(Initial(), b, 56); RoundsNext(Initial(), b, 57);
    RoundsNext(Initial(), b, 58); RoundsNext(Initial(), b, 59);
    RoundsNext(Initial(), b, 60); RoundsNext(Initial(), b, 61);
    RoundsNext(Initial(), b, 62); RoundsNext(Initial(), b, 63);
  }

  lemma {:induction false} RoundsBegin(b: seq<u8>)
    requires |b| == 64
    ensures Rounds(Initial(), b, 0) == V0
  {
  }

  // ---- The digest ----

  const FINAL: Chain := [0xba7816bf, 0x8f01cfea, 0x414140de, 0x5dae2223, 0xb00361a3, 0x96177a9c, 0xb410ff61, 0xf20015ad]

  lemma {:induction false} FinalState()
    ensures Chained(Initial(), V64) == FINAL
  {
  }

  lemma {:induction false} FinalBytes0()
    ensures WordBytes(0xba7816bf) == [0xba, 0x78, 0x16, 0xbf]
    ensures WordBytes(0x8f01cfea) == [0x8f, 0x01, 0xcf, 0xea]
    ensures WordBytes(0x414140de) == [0x41, 0x41, 0x40, 0xde]
    ensures WordBytes(0x5dae2223) == [0x5d, 0xae, 0x22, 0x23]
  {
  }

  lemma {:induction false} FinalBytes4()
    ensures WordBytes(0xb00361a3) == [0xb0, 0x03, 0x61, 0xa3]
    ensures WordBytes(0x96177a9c) == [0x96, 0x17, 0x7a, 0x9c]
    ensures WordBytes(0xb410ff61) == [0xb4, 0x10, 0xff, 0x61]
    ensures WordBytes(0xf20015ad) == [0xf2, 0x00, 0x15, 0xad]
  {
  }

  lemma {:induction false} FinalDigest()
    ensures Serialized(FINAL) ==
      [0xba, 0x78, 0x16, 0xbf, 0x8f, 0x01, 0xcf, 0xea,
       0x41, 0x41, 0x40, 0xde, 0x5d, 0xae, 0x22, 0x23,
       0xb0, 0x03, 0x61, 0xa3, 0x96, 0x17, 0x7a, 0x9c,
       0xb4, 0x10, 0xff, 0x61, 0xf2, 0x00, 0x15, 0xad]
  {
    hide WordBytes;
    FinalBytes0();
    FinalBytes4();
  }

  /** Hashing `abc` returns the digest that the standard's example gives. */
  method HashAbc() returns (digest: seq<u8>)
    ensures digest ==
      [0xba, 0x78, 0x16, 0xbf, 0x8f, 0x01, 0xcf, 0xea,
       0x41, 0x41, 0x40, 0xde, 0x5d, 0xae, 0x22, 0x23,
       0xb0, 0x03, 0x61, 0xa3, 0x96, 0x17, 0x7a, 0x9c,
       0xb4, 0x10, 0xff, 0x61, 0xf2, 0x00, 0x15, 0xad]
  {
    hide *;
    digest := Sha256.Hash(ABC);
    SmallMessage();
    WrappedDigestIsStandard(ABC);
    DigestIsFold(ABC);
    BlockBytes();
    FoldOfAbc(Padded(ABC));
    FinalDigest();
  }

  lemma {:induction false} SmallMessage()
    ensures |ABC| == 3 < BYTE_LIMIT
  {
  }

  lemma {:induction false} FoldOfAbc(b: seq<u8>)
    requires |b| == 64 && HoldsAbc(b)
    ensures BlockFold(b) == FINAL
  {
    hide Rounds, Chained, HoldsAbc, Initial;
    Rounds56(b);
    FinalState();
    FirstBlock(b);
  }

  lemma {:induction false} DigestIsFold(message: seq<u8>)
    requires |message| < BYTE_LIMIT
    ensures |Padded(message)| % 64 == 0 && Digest(message) == Serialized(BlockFold(Padded(message)))
  {
    hide BlockFold, PaddedWith;
    LengthOfPadded(message, 8 * |message|);
  }

  lemma {:induction false} FirstBlock(b: seq<u8>)
    requires |b| == 64
    ensures BlockFold(b) == Compress(Initial(), b)
  {
    hide Compress;
    assert b[..0] == [] && b[0..] == b;
  }
}
