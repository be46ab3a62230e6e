/** SHA-256 against what is known of it from outside: the constants as roots of primes, the length octets as a number, the
    blocks in order, and the hash of "abc" that the program's own tests ask for (tests/test_streamlabs_login.cpp). */
module Sha256Known {
  import opened Sha256

  // ----- the constants (FIPS 180-4, sections 4.2.2 and 5.3.3) -----

  const PRIMES0: seq<nat> := [2, 3, 5, 7, 11, 13, 17, 19]
  const PRIMES1: seq<nat> := [23, 29, 31, 37, 41, 43, 47, 53]
  const PRIMES2: seq<nat> := [59, 61, 67, 71, 73, 79, 83, 89]
  const PRIMES3: seq<nat> := [97, 101, 103, 107, 109, 113, 127, 131]
  const PRIMES4: seq<nat> := [137, 139, 149, 151, 157, 163, 167, 173]
  const PRIMES5: seq<nat> := [179, 181, 191, 193, 197, 199, 211, 223]
  const PRIMES6: seq<nat> := [227, 229, 233, 239, 241, 251, 257, 263]
  const PRIMES7: seq<nat> := [269, 271, 277, 281, 283, 293, 307, 311]

  predicate HasCube(p: nat, n: nat) {
    n * n * n <= p * 0x1_0000_0000_0000_0000_0000_0000 < (n + 1) * (n + 1) * (n + 1)
  }

  predicate HasSquare(p: nat, n: nat) {
    n * n <= p * 0x1_0000_0000_0000_0000 < (n + 1) * (n + 1)
  }

  /** `k` is the first 32 bits of the fraction of the cube root of `p`. */
  predicate IsCubeRoot(p: nat, k: nat) {
    exists c: nat :: c < 7 && HasCube(p, c * 0x1_0000_0000 + k) && k < 0x1_0000_0000
  }

  predicate IsSquareRoot(p: nat, k: nat) {
    exists c: nat :: c < 5 && HasSquare(p, c * 0x1_0000_0000 + k) && k < 0x1_0000_0000
  }

  ghost predicate AreCubeRoots(primes: seq<nat>, row: seq<Word>) {
    |primes| == |row| == 8 && forall j :: 0 <= j < 8 ==> IsCubeRoot(primes[j], row[j] as nat)
  }

  lemma Row0()
    ensures AreCubeRoots(PRIMES0, ROW0)
  {
    hide IsCubeRoot;
    CubeRoot(2, 1, 0x428a2f98);
    CubeRoot(3, 1, 0x71374491);
    CubeRoot(5, 1, 0xb5c0fbcf);
    CubeRoot(7, 1, 0xe9b5dba5);
    CubeRoot(11, 2, 0x3956c25b);
    CubeRoot(13, 2, 0x59f111f1);
    CubeRoot(17, 2, 0x923f82a4);
    CubeRoot(19, 2, 0xab1c5ed5);
  }

  lemma Row1()
    ensures AreCubeRoots(PRIMES1, ROW1)
  {
    hide IsCubeRoot;
    CubeRoot(23, 2, 0xd807aa98);
    CubeRoot(29, 3, 0x12835b01);
    CubeRoot(31, 3, 0x243185be);
    CubeRoot(37, 3, 0x550c7dc3);
    CubeRoot(41, 3, 0x72be5d74);
    CubeRoot(43, 3, 0x80deb1fe);
    CubeRoot(47, 3, 0x9bdc06a7);
    CubeRoot(53, 3, 0xc19bf174);
  }

  lemma Row2()
    ensures AreCubeRoots(PRIMES2, ROW2)
  {
    hide IsCubeRoot;
    CubeRoot(59, 3, 0xe49b69c1);
    CubeRoot(61, 3, 0xefbe4786);
    CubeRoot(67, 4, 0x0fc19dc6);
    CubeRoot(71, 4, 0x240ca1cc);
    CubeRoot(73, 4, 0x2de92c6f);
    CubeRoot(79, 4, 0x4a7484aa);
    CubeRoot(83, 4, 0x5cb0a9dc);
    CubeRoot(89, 4, 0x76f988da);
  }

  lemma Row3()
    ensures AreCubeRoots(PRIMES3, ROW3)
  {
    hide IsCubeRoot;
    CubeRoot(97, 4, 0x983e5152);
    CubeRoot(101, 4, 0xa831c66d);
    CubeRoot(103, 4, 0xb00327c8);
    CubeRoot(107, 4, 0xbf597fc7);
    CubeRoot(109, 4, 0xc6e00bf3);
    CubeRoot(113, 4, 0xd5a79147);
    CubeRoot(127, 5, 0x06ca6351);
    CubeRoot(131, 5, 0x14292967);
  }

  lemma Row4()
    ensures AreCubeRoots(PRIMES4, ROW4)
  {
    hide IsCubeRoot;
    CubeRoot(137, 5, 0x27b70a85);
    CubeRoot(139, 5, 0x2e1b2138);
    CubeRoot(149, 5, 0x4d2c6dfc);
    CubeRoot(151, 5, 0x53380d13);
    CubeRoot(157, 5, 0x650a7354);
    CubeRoot(163, 5, 0x766a0abb);
    CubeRoot(167, 5, 0x81c2c92e);
    CubeRoot(173, 5, 0x92722c85);
  }

  lemma Row5()
    ensures AreCubeRoots(PRIMES5, ROW5)
  {
    hide IsCubeRoot;
    CubeRoot(179, 5, 0xa2bfe8a1);
    CubeRoot(181, 5, 0xa81a664b);
    CubeRoot(191, 5, 0xc24b8b70);
    CubeRoot(193, 5, 0xc76c51a3);
    CubeRoot(197, 5, 0xd192e819);
    CubeRoot(199, 5, 0xd6990624);
    CubeRoot(211, 5, 0xf40e3585);
    CubeRoot(223, 6, 0x106aa070);
  }

  lemma Row6()
    ensures AreCubeRoots(PRIMES6, ROW6)
  {
    hide IsCubeRoot;
    CubeRoot(227, 6, 0x19a4c116);
    CubeRoot(229, 6, 0x1e376c08);
    CubeRoot(233, 6, 0x2748774c);
    CubeRoot(239, 6, 0x34b0bcb5);
    CubeRoot(241, 6, 0x391c0cb3);
    CubeRoot(251, 6, 0x4ed8aa4a);
    CubeRoot(257, 6, 0x5b9cca4f);
    CubeRoot(263, 6, 0x682e6ff3);
  }

  lemma Row7()
    ensures AreCubeRoots(PRIMES7, ROW7)
  {
    hide IsCubeRoot;
    CubeRoot(269, 6, 0x748f82ee);
    CubeRoot(271, 6, 0x78a5636f);
    CubeRoot(277, 6, 0x84c87814);
    CubeRoot(281, 6, 0x8cc70208);
    CubeRoot(283, 6, 0x90befffa);
    CubeRoot(293, 6, 0xa4506ceb);
    CubeRoot(307, 6, 0xbef9a3f7);
    CubeRoot(311, 6, 0xc67178f2);
  }

  lemma CubeRoot(p: nat, c: nat, k: nat)
    requires c < 7 && k < 0x1_0000_0000 && HasCube(p, c * 0x1_0000_0000 + k)
    ensures IsCubeRoot(p, k)
  {
  }

  lemma SquareRoot(p: nat, c: nat, k: nat)
    requires c < 5 && k < 0x1_0000_0000 && HasSquare(p, c * 0x1_0000_0000 + k)
    ensures IsSquareRoot(p, k)
  {
  }

  /** The round constants are the cube roots of the first 64 primes, the initial hash value the square roots of the first 8. */
  lemma ConstantsAreRoots()
    ensures var primes := PRIMES0 + PRIMES1 + PRIMES2 + PRIMES3 + PRIMES4 + PRIMES5 + PRIMES6 + PRIMES7;
            |K| == |primes| == 64 && forall t :: 0 <= t < 64 ==> IsCubeRoot(primes[t], K[t] as nat)
    ensures |H0| == 8 && forall t :: 0 <= t < 8 ==> IsSquareRoot(PRIMES0[t], H0[t] as nat)
  {
    hide IsCubeRoot, IsSquareRoot, ROW0, ROW1, ROW2, ROW3, ROW4, ROW5, ROW6, ROW7;
    Row0(); Row1(); Row2(); Row3(); Row4(); Row5(); Row6(); Row7();
    SquareRoot(2, 1, 0x6a09e667);
    SquareRoot(3, 1, 0xbb67ae85);
    SquareRoot(5, 2, 0x3c6ef372);
    SquareRoot(7, 2, 0xa54ff53a);
    SquareRoot(11, 3, 0x510e527f);
    SquareRoot(13, 3, 0x9b05688c);
    SquareRoot(17, 4, 0x1f83d9ab);
    SquareRoot(19, 4, 0x5be0cd19);
  }

  // ----- the length octets -----

  function Number(s: seq<nat>): nat {
    if s == [] then 0 else Number(s[..|s| - 1]) * 256 + s[|s| - 1]
  }

  lemma Digits(x: nat, m: nat)
    requires m > 0
    ensures x % (256 * m) == (x / 256 % m) * 256 + x % 256
  {
    ModOfMultiple(x, m);
  }

  lemma {:induction false} TopOctets(s: seq<nat>, bits: nat)
    requires forall i :: 0 <= i < |s| ==> s[i] == OctetAt(bits, |s| - 1 - i)
    ensures Number(s) == bits % Pow256(|s|)
    decreases |s|
  {
    if s != [] {
      var t := s[..|s| - 1];
      forall i | 0 <= i < |t| ensures t[i] == OctetAt(bits / 256, |t| - 1 - i) {
        assert t[i] == s[i];
      }
      TopOctets(t, bits / 256);
      Digits(bits, Pow256(|t|));
    }
  }

  /** The padding ends in the length of the message in bits, a big-endian number of 64 bits. */
  lemma LengthIsBigEndian(bits: nat) returns (digits: seq<nat>)
    ensures |digits| == |LengthBytes(bits)| == 8 && Number(digits) == bits % TWO_64
    ensures forall i :: 0 <= i < 8 ==> digits[i] < 256 && LengthBytes(bits)[i] == digits[i] as Octet
  {
    hide OctetAt, Number, Pow256;
    digits := seq(8, i requires 0 <= i < 8 => OctetAt(bits, 7 - i));
    TopOctets(digits, bits);
    Pow256Of8();
  }

  // ----- the blocks in order -----

  /** The hash value of a whole number of blocks, taken from the front. */
  function HashFrom(h: seq<Word>, p: seq<Octet>): seq<Word>
    requires |h| == 8 && |p| % 64 == 0
    decreases |p|
  {
    if p == [] then h else HashFrom(Compress(h, p[..64]), p[64..])
  }

  lemma {:induction false} BlocksInOrder(p: seq<Octet>, n: nat)
    requires |p| % 64 == 0 && n * 64 <= |p|
    ensures HashFrom(HashBlocks(p, n), p[n * 64..]) == HashFrom(H0, p)
  {
    hide Compress;
    if n == 0 {
      assert p[0..] == p;
    } else {
      BlocksInOrder(p, n - 1);
      var rest := p[(n - 1) * 64..];
      assert rest[..64] == p[(n - 1) * 64..n * 64] && rest[64..] == p[n * 64..];
    }
  }

  /** The digest compresses the blocks of the padded message one after the other, from the first to the last. */
  lemma DigestFromTheFront(m: seq<Octet>)
    ensures Digest(m) == HashFrom(H0, Padded(m))
  {
    hide Padded, HashBlocks;
    var p := Padded(m);
    BlocksInOrder(p, |p| / 64);
    assert p[|p| / 64 * 64..] == [];
  }

  // ----- "abc" -----

  const ABC: seq<Octet> := [0x61, 0x62, 0x63]

  ghost predicate IsAbc(b: seq<Octet>) {
    |b| == 64 && b[0] == 0x61 && b[1] == 0x62 && b[2] == 0x63 && b[3] == 0x80 && (forall k :: 4 <= k < 63 ==> b[k] == 0) && b[63] == 24
  }

  lemma AbcIsPadded()
    ensures IsAbc(Padded(ABC)) && |Padded(ABC)| == 64
  {
    hide LengthBytes;
    assert ZeroCount(3) == 52;
    assert OctetAt(24, 0) == 24;
    forall i | 1 <= i < 8 ensures OctetAt(24, i) == 0 {
      NoOctet(i - 1);
    }
  }

  lemma {:induction false} NoOctet(i: nat)
    ensures OctetAt(0, i) == 0
  {
    if i > 0 {
      NoOctet(i - 1);
    }
  }

  lemma Words0(b: seq<Octet>)
    requires IsAbc(b)
    ensures W(b, 0) == 0x61626380 && W(b, 1) == 0x00000000 && W(b, 2) == 0x00000000 && W(b, 3) == 0x00000000
    ensures W(b, 4) == 0x00000000 && W(b, 5) == 0x00000000 && W(b, 6) == 0x00000000 && W(b, 7) == 0x00000000
    ensures W(b, 8) == 0x00000000 && W(b, 9) == 0x00000000 && W(b, 10) == 0x00000000 && W(b, 11) == 0x00000000
    ensures W(b, 12) == 0x00000000 && W(b, 13) == 0x00000000 && W(b, 14) == 0x00000000 && W(b, 15) == 0x00000018
  {
  }

  lemma Words1(b: seq<Octet>)
    requires IsAbc(b)
    ensures W(b, 16) == 0x61626380 && W(b, 17) == 0x000f0000 && W(b, 18) == 0x7da86405 && W(b, 19) == 0x600003c6
    ensures W(b, 20) == 0x3e9d7b78 && W(b, 21) == 0x0183fc00 && W(b, 22) == 0x12dcbfdb && W(b, 23) == 0xe2e2c38e
  {
    hide WordAt, IsAbc;
    Words0(b);
  }

  lemma Words2(b: seq<Octet>)
    requires IsAbc(b)
    ensures W(b, 24) == 0xc8215c1a && W(b, 25) == 0xb73679a2 && W(b, 26) == 0xe5bc3909 && W(b, 27) == 0x32663c5b
    ensures W(b, 28) == 0x9d209d67 && W(b, 29) == 0xec8726cb && W(b, 30) == 0x702138a4 && W(b, 31) == 0xd3b7973b
  {
    hide WordAt, IsAbc;
    Words1(b);
    Words0(b);
  }

  lemma Words3(b: seq<Octet>)
    requires IsAbc(b)
    ensures W(b, 32) == 0x93f5997f && W(b, 33) == 0x3b68ba73 && W(b, 34) == 0xaff4ffc1 && W(b, 35) == 0xf10a5c62
    ensures W(b, 36) == 0x0a8b3996 && W(b, 37) == 0x72af830a && W(b, 38) == 0x9409e33e && W(b, 39) == 0x24641522
  {
    hide WordAt, IsAbc;
    Words2(b);
    Words1(b);
  }

  lemma Words4(b: seq<Octet>)
    requires IsAbc(b)
    ensures W(b, 40) == 0x9f47bf94 && W(b, 41) == 0xf0a64f5a && W(b, 42) == 0x3e246a79 && W(b, 43) == 0x27333ba3
    ensures W(b, 44) == 0x0c4763f2 && W(b, 45) == 0x840abf27 && W(b, 46) == 0x7a290d5d && W(b, 47) == 0x065c43da
  {
    hide WordAt, IsAbc;
    Words3(b);
    Words2(b);
  }

  lemma Words5(b: seq<Octet>)
    requires IsAbc(b)
    ensures W(b, 48) == 0xfb3e89cb && W(b, 49) == 0xcc7617db && W(b, 50) == 0xb9e66c34 && W(b, 51) == 0xa9993667
    ensures W(b, 52) == 0x84badedd && W(b, 53) == 0xc21462bc && W(b, 54) == 0x1487472c && W(b, 55) == 0xb20f7a99
  {
    hide WordAt, IsAbc;
    Words4(b);
    Words3(b);
  }

  lemma Words6(b: seq<Octet>)
    requires IsAbc(b)
    ensures W(b, 56) == 0xef57b9cd && W(b, 57) == 0xebe6b238 && W(b, 58) == 0x9fe3095e && W(b, 59) == 0x78bc8d4b
    ensures W(b, 60) == 0xa43fcf15 && W(b, 61) == 0x668b2ff8 && W(b, 62) == 0xeeaba2cc && W(b, 63) == 0x12b1edeb
  {
    hide WordAt, IsAbc;
    Words5(b);
    Words4(b);
  }

  lemma KValues0()
    ensures K[0] == 0x428a2f98 && K[1] == 0x71374491 && K[2] == 0xb5c0fbcf && K[3] == 0xe9b5dba5
    ensures K[4] == 0x3956c25b && K[5] == 0x59f111f1 && K[6] == 0x923f82a4 && K[7] == 0xab1c5ed5
  {
  }

  lemma KValues1()
    ensures K[8] == 0xd807aa98 && K[9] == 0x12835b01 && K[10] == 0x243185be && K[11] == 0x550c7dc3
    ensures K[12] == 0x72be5d74 && K[13] == 0x80deb1fe && K[14] == 0x9bdc06a7 && K[15] == 0xc19bf174
  {
  }

  lemma KValues2()
    ensures K[16] == 0xe49b69c1 && K[17] == 0xefbe4786 && K[18] == 0x0fc19dc6 && K[19] == 0x240ca1cc
    ensures K[20] == 0x2de92c6f && K[21] == 0x4a7484aa && K[22] == 0x5cb0a9dc && K[23] == 0x76f988da
  {
  }

  lemma KValues3()
    ensures K[24] == 0x983e5152 && K[25] == 0xa831c66d && K[26] == 0xb00327c8 && K[27] == 0xbf597fc7
    ensures K[28] == 0xc6e00bf3 && K[29] == 0xd5a79147 && K[30] == 0x06ca6351 && K[31] == 0x14292967
  {
  }

  lemma KValues4()
    ensures K[32] == 0x27b70a85 && K[33] == 0x2e1b2138 && K[34] == 0x4d2c6dfc && K[35] == 0x53380d13
    ensures K[36] == 0x650a7354 && K[37] == 0x766a0abb && K[38] == 0x81c2c92e && K[39] == 0x92722c85
  {
  }

  lemma KValues5()
    ensures K[40] == 0xa2bfe8a1 && K[41] == 0xa81a664b && K[42] == 0xc24b8b70 && K[43] == 0xc76c51a3
    ensures K[44] == 0xd192e819 && K[45] == 0xd6990624 && K[46] == 0xf40e3585 && K[47] == 0x106aa070
  {
  }

  lemma KValues6()
    ensures K[48] == 0x19a4c116 && K[49] == 0x1e376c08 && K[50] == 0x2748774c && K[51] == 0x34b0bcb5
    ensures K[52] == 0x391c0cb3 && K[53] == 0x4ed8aa4a && K[54] == 0x5b9cca4f && K[55] == 0x682e6ff3
  {
  }

  lemma KValues7()
    ensures K[56] == 0x748f82ee && K[57] == 0x78a5636f && K[58] == 0x84c87814 && K[59] == 0x8cc70208
    ensures K[60] == 0x90befffa && K[61] == 0xa4506ceb && K[62] == 0xbef9a3f7 && K[63] == 0xc67178f2
  {
  }

  lemma Rounds0(b: seq<Octet>)
    requires IsAbc(b)
    ensures Rounds(Load(H0), b, 4) == Vars(0xd550f666, 0xc8c347a7, 0x5a6ad9ad, 0x5d6aebcd, 0x24e00850, 0xf92939eb, 0x78ce7989, 0xfa2a4622)
  {
    hide W, K;
    Words0(b);
    KValues0();
    assert Rounds(Load(H0), b, 1) == Vars(0x5d6aebcd, 0x6a09e667, 0xbb67ae85, 0x3c6ef372, 0xfa2a4622, 0x510e527f, 0x9b05688c, 0x1f83d9ab);
    assert Rounds(Load(H0), b, 2) == Vars(0x5a6ad9ad, 0x5d6aebcd, 0x6a09e667, 0xbb67ae85, 0x78ce7989, 0xfa2a4622, 0x510e527f, 0x9b05688c);
    assert Rounds(Load(H0), b, 3) == Vars(0xc8c347a7, 0x5a6ad9ad, 0x5d6aebcd, 0x6a09e667, 0xf92939eb, 0x78ce7989, 0xfa2a4622, 0x510e527f);
  }

  lemma Rounds1(b: seq<Octet>)
    requires IsAbc(b)
    ensures Rounds(Load(H0), b, 8) == Vars(0x85a07b5f, 0xe5030380, 0x2b4209f5, 0x04409a6a, 0x0c657a79, 0x9b27a401, 0x714260ad, 0x43ada245)
  {
    hide W, K;
    Rounds0(b);
    Words0(b);
    KValues0();
    assert Rounds(Load(H0), b, 5) == Vars(0x04409a6a, 0xd550f666, 0xc8c347a7, 0x5a6ad9ad, 0x43ada245, 0x24e00850, 0xf92939eb, 0x78ce7989);
    assert Rounds(Load(H0), b, 6) == Vars(0x2b4209f5, 0x04409a6a, 0xd550f666, 0xc8c347a7, 0x714260ad, 0x43ada245, 0x24e00850, 0xf92939eb);
    assert Rounds(Load(H0), b, 7) == Vars(0xe5030380, 0x2b4209f5, 0x04409a6a, 0xd550f666, 0x9b27a401, 0x714260ad, 0x43ada245, 0x24e00850);
  }

  lemma Rounds2(b: seq<Octet>)
    requires IsAbc(b)
    ensures Rounds(Load(H0), b, 12) == Vars(0xf71fc5a9, 0x4798a3f4, 0x8c87346b, 0x8e04ecb9, 0x816fd6e9, 0x436b23e8, 0x1cc92596, 0x32ca2d8c)
  {
    hide W, K;
    Rounds1(b);
    Words0(b);
    KValues1();
    assert Rounds(Load(H0), b, 9) == Vars(0x8e04ecb9, 0x85a07b5f, 0xe5030380, 0x2b4209f5, 0x32ca2d8c, 0x0c657a79, 0x9b27a401, 0x714260ad);
    assert Rounds(Load(H0), b, 10) == Vars(0x8c87346b, 0x8e04ecb9, 0x85a07b5f, 0xe5030380, 0x1cc92596, 0x32ca2d8c, 0x0c657a79, 0x9b27a401);
    assert Rounds(Load(H0), b, 11) == Vars(0x4798a3f4, 0x8c87346b, 0x8e04ecb9, 0x85a07b5f, 0x436b23e8, 0x1cc92596, 0x32ca2d8c, 0x0c657a79);
  }

  lemma Rounds3(b: seq<Octet>)
    requires IsAbc(b)
    ensures Rounds(Load(H0), b, 16) == Vars(0xb0fa238e, 0xc0645fde, 0xd932eb16, 0x87912990, 0x07590dcd, 0x0b92f20c, 0x745a48de, 0x1e578218)
  {
    hide W, K;
    Rounds2(b);
    Words0(b);
    KValues1();
    assert Rounds(Load(H0), b, 13) == Vars(0x87912990, 0xf71fc5a9, 0x4798a3f4, 0x8c87346b, 0x1e578218, 0x816fd6e9, 0x436b23e8, 0x1cc92596);
    assert Rounds(Load(H0), b, 14) == Vars(0xd932eb16, 0x87912990, 0xf71fc5a9, 0x4798a3f4, 0x745a48de, 0x1e578218, 0x816fd6e9, 0x436b23e8);
    assert Rounds(Load(H0), b, 15) == Vars(0xc0645fde, 0xd932eb16, 0x87912990, 0xf71fc5a9, 0x0b92f20c, 0x745a48de, 0x1e578218, 0x816fd6e9);
  }

  lemma Rounds4(b: seq<Octet>)
    requires IsAbc(b)
    ensures Rounds(Load(H0), b, 20) == Vars(0xe1f20c33, 0xfe777bbf, 0xc2fbd9d1, 0x21da9a9b, 0xb0638179, 0xcc899961, 0x846ee454, 0x8034229c)
  {
    hide W, K;
    Rounds3(b);
    Words1(b);
    KValues2();
    assert Rounds(Load(H0), b, 17) == Vars(0x21da9a9b, 0xb0fa238e, 0xc0645fde, 0xd932eb16, 0x8034229c, 0x07590dcd, 0x0b92f20c, 0x745a48de);
    assert Rounds(Load(H0), b, 18) == Vars(0xc2fbd9d1, 0x21da9a9b, 0xb0fa238e, 0xc0645fde, 0x846ee454, 0x8034229c, 0x07590dcd, 0x0b92f20c);
    assert Rounds(Load(H0), b, 19) == Vars(0xfe777bbf, 0xc2fbd9d1, 0x21da9a9b, 0xb0fa238e, 0xcc899961, 0x846ee454, 0x8034229c, 0x07590dcd);
  }

  lemma Rounds5(b: seq<Octet>)
    requires IsAbc(b)
    ensures Rounds(Load(H0), b, 24) == Vars(0xc5d53d8d, 0xa7a3623f, 0xc2606d6d, 0x9dc68b63, 0xaa47c347, 0x49f5114a, 0xe1257970, 0x8ada8930)
  {
    hide W, K;
    Rounds4(b);
    Words1(b);
    KValues2();
    assert Rounds(Load(H0), b, 21) == Vars(0x9dc68b63, 0xe1f20c33, 0xfe777bbf, 0xc2fbd9d1, 0x8ada8930, 0xb0638179, 0xcc899961, 0x846ee454);
    assert Rounds(Load(H0), b, 22) == Vars(0xc2606d6d, 0x9dc68b63, 0xe1f20c33, 0xfe777bbf, 0xe1257970, 0x8ada8930, 0xb0638179, 0xcc899961);
    assert Rounds(Load(H0), b, 23) == Vars(0xa7a3623f, 0xc2606d6d, 0x9dc68b63, 0xe1f20c33, 0x49f5114a, 0xe1257970, 0x8ada8930, 0xb0638179);
  }

  lemma Rounds6(b: seq<Octet>)
    requires IsAbc(b)
    ensures Rounds(Load(H0), b, 28) == Vars(0x77d37528, 0xb62ec4bc, 0xcde8037d, 0x1c2c2838, 0xedffbff8, 0xc74c6516, 0x14383d8e, 0x2823ef91)
  {
    hide W, K;
    Rounds5(b);
    Words2(b);
    KValues3();
    assert Rounds(Load(H0), b, 25) == Vars(0x1c2c2838, 0xc5d53d8d, 0xa7a3623f, 0xc2606d6d, 0x2823ef91, 0xaa47c347, 0x49f5114a, 0xe1257970);
    assert Rounds(Load(H0), b, 26) == Vars(0xcde8037d, 0x1c2c2838, 0xc5d53d8d, 0xa7a3623f, 0x14383d8e, 0x2823ef91, 0xaa47c347, 0x49f5114a);
    assert Rounds(Load(H0), b, 27) == Vars(0xb62ec4bc, 0xcde8037d, 0x1c2c2838, 0xc5d53d8d, 0xc74c6516, 0x14383d8e, 0x2823ef91, 0xaa47c347);
  }

  lemma Rounds7(b: seq<Octet>)
    requires IsAbc(b)
    ensures Rounds(Load(H0), b, 32) == Vars(0x73b33bf5, 0xea992a22, 0xa0060b30, 0x363482c9, 0xba591112, 0x0109ab3a, 0xade79437, 0x6112a3b7)
  {
    hide W, K;
    Rounds6(b);
    Words2(b);
    KValues3();
    assert Rounds(Load(H0), b, 29) == Vars(0x363482c9, 0x77d37528, 0xb62ec4bc, 0xcde8037d, 0x6112a3b7, 0xedffbff8, 0xc74c6516, 0x14383d8e);
    assert Rounds(Load(H0), b, 30) == Vars(0xa0060b30, 0x363482c9, 0x77d37528, 0xb62ec4bc, 0xade79437, 0x6112a3b7, 0xedffbff8, 0xc74c6516);
    assert Rounds(Load(H0), b, 31) == Vars(0xea992a22, 0xa0060b30, 0x363482c9, 0x77d37528, 0x0109ab3a, 0xade79437, 0x6112a3b7, 0xedffbff8);
  }

  lemma Rounds8(b: seq<Octet>)
    requires IsAbc(b)
    ensures Rounds(Load(H0), b, 36) == Vars(0x65a0cfe4, 0xa9a7738c, 0xfe604df5, 0x98e12507, 0xf4b002d6, 0x085f3833, 0x59249dd3, 0x9cd9f5f6)
  {
    hide W, K;
    Rounds7(b);
    Words3(b);
    KValues4();
    assert Rounds(Load(H0), b, 33) == Vars(0x98e12507, 0x73b33bf5, 0xea992a22, 0xa0060b30, 0x9cd9f5f6, 0xba591112, 0x0109ab3a, 0xade79437);
    assert Rounds(Load(H0), b, 34) == Vars(0xfe604df5, 0x98e12507, 0x73b33bf5, 0xea992a22, 0x59249dd3, 0x9cd9f5f6, 0xba591112, 0x0109ab3a);
    assert Rounds(Load(H0), b, 35) == Vars(0xa9a7738c, 0xfe604df5, 0x98e12507, 0x73b33bf5, 0x085f3833, 0x59249dd3, 0x9cd9f5f6, 0xba591112);
  }

  lemma Rounds9(b: seq<Octet>)
    requires IsAbc(b)
    ensures Rounds(Load(H0), b, 40) == Vars(0x79ea687a, 0x6dc57a8a, 0x34df1604, 0x41a65cb1, 0x1efbc0a0, 0xf0781bc8, 0xa507a53d, 0x0772a26b)
  {
    hide W, K;
    Rounds8(b);
    Words3(b);
    KValues4();
    assert Rounds(Load(H0), b, 37) == Vars(0x41a65cb1, 0x65a0cfe4, 0xa9a7738c, 0xfe604df5, 0x0772a26b, 0xf4b002d6, 0x085f3833, 0x59249dd3);
    assert Rounds(Load(H0), b, 38) == Vars(0x34df1604, 0x41a65cb1, 0x65a0cfe4, 0xa9a7738c, 0xa507a53d, 0x0772a26b, 0xf4b002d6, 0x085f3833);
    assert Rounds(Load(H0), b, 39) == Vars(0x6dc57a8a, 0x34df1604, 0x41a65cb1, 0x65a0cfe4, 0xf0781bc8, 0xa507a53d, 0x0772a26b, 0xf4b002d6);
  }

  lemma Rounds10(b: seq<Octet>)
    requires IsAbc(b)
    ensures Rounds(Load(H0), b, 44) == Vars(0x9d4baf93, 0x17aa0dfe, 0xdf46652f, 0xd6670766, 0xfda24c2e, 0xdecd4715, 0x838b2711, 0x26352d63)
  {
    hide W, K;
    Rounds9(b);
    Words4(b);
    KValues5();
    assert Rounds(Load(H0), b, 41) == Vars(0xd6670766, 0x79ea687a, 0x6dc57a8a, 0x34df1604, 0x26352d63, 0x1efbc0a0, 0xf0781bc8, 0xa507a53d);
    assert Rounds(Load(H0), b, 42) == Vars(0xdf46652f, 0xd6670766, 0x79ea687a, 0x6dc57a8a, 0x838b2711, 0x26352d63, 0x1efbc0a0, 0xf0781bc8);
    assert Rounds(Load(H0), b, 43) == Vars(0x17aa0dfe, 0xdf46652f, 0xd6670766, 0x79ea687a, 0xdecd4715, 0x838b2711, 0x26352d63, 0x1efbc0a0);
  }

  lemma Rounds11(b: seq<Octet>)
    requires IsAbc(b)
    ensures Rounds(Load(H0), b, 48) == Vars(0x4172328d, 0xa14c14b0, 0x72ab4b91, 0x26628815, 0xfecf0bc6, 0xd57b94a9, 0xb7755da1, 0xa80f11f0)
  {
    hide W, K;
    Rounds10(b);
    Words4(b);
    KValues5();
    assert Rounds(Load(H0), b, 45) == Vars(0x26628815, 0x9d4baf93, 0x17aa0dfe, 0xdf46652f, 0xa80f11f0, 0xfda24c2e, 0xdecd4715, 0x838b2711);
    assert Rounds(Load(H0), b, 46) == Vars(0x72ab4b91, 0x26628815, 0x9d4baf93, 0x17aa0dfe, 0xb7755da1, 0xa80f11f0, 0xfda24c2e, 0xdecd4715);
    assert Rounds(Load(H0), b, 47) == Vars(0xa14c14b0, 0x72ab4b91, 0x26628815, 0x9d4baf93, 0xd57b94a9, 0xb7755da1, 0xa80f11f0, 0xfda24c2e);
  }

  lemma Rounds12(b: seq<Octet>)
    requires IsAbc(b)
    ensures Rounds(Load(H0), b, 52) == Vars(0x886e7a22, 0x7a0508a1, 0xf11bfaa8, 0x05757ceb, 0x49231c1e, 0x52f1ccf7, 0x6e5c390c, 0xbd714038)
  {
    hide W, K;
    Rounds11(b);
    Words5(b);
    KValues6();
    assert Rounds(Load(H0), b, 49) == Vars(0x05757ceb, 0x4172328d, 0xa14c14b0, 0x72ab4b91, 0xbd714038, 0xfecf0bc6, 0xd57b94a9, 0xb7755da1);
    assert Rounds(Load(H0), b, 50) == Vars(0xf11bfaa8, 0x05757ceb, 0x4172328d, 0xa14c14b0, 0x6e5c390c, 0xbd714038, 0xfecf0bc6, 0xd57b94a9);
    assert Rounds(Load(H0), b, 51) == Vars(0x7a0508a1, 0xf11bfaa8, 0x05757ceb, 0x4172328d, 0x52f1ccf7, 0x6e5c390c, 0xbd714038, 0xfecf0bc6);
  }

  lemma Rounds13(b: seq<Octet>)
    requires IsAbc(b)
    ensures Rounds(Load(H0), b, 56) == Vars(0x38cc9913, 0x3ec45cdb, 0xf5702fdb, 0x101fd28f, 0x54cb266b, 0xe50e1b4f, 0x9f4787c3, 0x529e7d00)
  {
    hide W, K;
    Rounds12(b);
    Words5(b);
    KValues6();
    assert Rounds(Load(H0), b, 53) == Vars(0x101fd28f, 0x886e7a22, 0x7a0508a1, 0xf11bfaa8, 0x529e7d00, 0x49231c1e, 0x52f1ccf7, 0x6e5c390c);
    assert Rounds(Load(H0), b, 54) == Vars(0xf5702fdb, 0x101fd28f, 0x886e7a22, 0x7a0508a1, 0x9f4787c3, 0x529e7d00, 0x49231c1e, 0x52f1ccf7);
    assert Rounds(Load(H0), b, 55) == Vars(0x3ec45cdb, 0xf5702fdb, 0x101fd28f, 0x886e7a22, 0xe50e1b4f, 0x9f4787c3, 0x529e7d00, 0x49231c1e);
  }

  lemma Rounds14(b: seq<Octet>)
    requires IsAbc(b)
    ensures Rounds(Load(H0), b, 60) == Vars(0xb6ae8fff, 0xffb70472, 0xc062d46f, 0xfcd1887b, 0xb21bad3d, 0x6d83bfc6, 0x7e44008e, 0x9b5e906c)
  {
    hide W, K;
    Rounds13(b);
    Words6(b);
    KValues7();
    assert Rounds(Load(H0), b, 57) == Vars(0xfcd1887b, 0x38cc9913, 0x3ec45cdb, 0xf5702fdb, 0x9b5e906c, 0x54cb266b, 0xe50e1b4f, 0x9f4787c3);
    assert Rounds(Load(H0), b, 58) == Vars(0xc062d46f, 0xfcd1887b, 0x38cc9913, 0x3ec45cdb, 0x7e44008e, 0x9b5e906c, 0x54cb266b, 0xe50e1b4f);
    assert Rounds(Load(H0), b, 59) == Vars(0xffb70472, 0xc062d46f, 0xfcd1887b, 0x38cc9913, 0x6d83bfc6, 0x7e44008e, 0x9b5e906c, 0x54cb266b);
  }

  lemma Rounds15(b: seq<Octet>)
    requires IsAbc(b)
    ensures Rounds(Load(H0), b, 64) == Vars(0x506e3058, 0xd39a2165, 0x04d24d6c, 0xb85e2ce9, 0x5ef50f24, 0xfb121210, 0x948d25b6, 0x961f4894)
  {
    hide W, K;
    Rounds14(b);
    Words6(b);
    KValues7();
    assert Rounds(Load(H0), b, 61) == Vars(0xb85e2ce9, 0xb6ae8fff, 0xffb70472, 0xc062d46f, 0x961f4894, 0xb21bad3d, 0x6d83bfc6, 0x7e44008e);
    assert Rounds(Load(H0), b, 62) == Vars(0x04d24d6c, 0xb85e2ce9, 0xb6ae8fff, 0xffb70472, 0x948d25b6, 0x961f4894, 0xb21bad3d, 0x6d83bfc6);
    assert Rounds(Load(H0), b, 63) == Vars(0xd39a2165, 0x04d24d6c, 0xb85e2ce9, 0xb6ae8fff, 0xfb121210, 0x948d25b6, 0x961f4894, 0xb21bad3d);
  }

  /** The digest of "abc". */
  lemma AbcDigest()
    ensures Digest(ABC) == [0xba7816bf, 0x8f01cfea, 0x414140de, 0x5dae2223, 0xb00361a3, 0x96177a9c, 0xb410ff61, 0xf20015ad]
  {
    hide Rounds, W, K, Padded, IsAbc;
    AbcIsPadded();
    var b := Padded(ABC);
    assert b[0..64] == b;
    Rounds15(b);
    assert HashBlocks(b, 0) == H0;
  }
}
