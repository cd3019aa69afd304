/** MD5 and HMAC-MD5: the unrolled block function against the rounds of RFC 1321, the
    buffered context against one-shot hashing, and HMAC against RFC 2104. */
module Md5 {

  const TWO_TO_THE_32 := 0x1_0000_0000

  type uint32 = x: int | 0 <= x < TWO_TO_THE_32

  type byte = x: int | 0 <= x < 0x100

  /** Addition of words wraps around. */
  function Add(x: uint32, y: uint32): uint32 { (x + y) % TWO_TO_THE_32 }

  /** The four registers. */
  datatype Quad = Quad(a: uint32, b: uint32, c: uint32, d: uint32)

  type Block = x: seq<byte> | |x| == 64 witness seq(64, i => 0)

  // ---- the rounds, as in section 3.4 of RFC 1321 ----

  function F(x: uint32, y: uint32, z: uint32): uint32 {
    var (x, y, z) := (x as bv32, y as bv32, z as bv32);
    ((x & y) | (!x & z)) as uint32
  }

  function G(x: uint32, y: uint32, z: uint32): uint32 {
    var (x, y, z) := (x as bv32, y as bv32, z as bv32);
    ((x & z) | (y & !z)) as uint32
  }

  function H(x: uint32, y: uint32, z: uint32): uint32 { (x as bv32 ^ y as bv32 ^ z as bv32) as uint32 }

  function I(x: uint32, y: uint32, z: uint32): uint32 {
    var (x, y, z) := (x as bv32, y as bv32, z as bv32);
    (y ^ (x | !z)) as uint32
  }

  function Auxiliary(i: nat, x: uint32, y: uint32, z: uint32): uint32 {
    if i < 16 then F(x, y, z) else if i < 32 then G(x, y, z) else if i < 48 then H(x, y, z) else I(x, y, z)
  }

  /** Which word of the block operation i uses. */
  function Index(i: nat): (k: nat)
    ensures k < 16
  {
    if i < 16 then i % 16 else if i < 32 then (1 + 5 * i) % 16 else if i < 48 then (5 + 3 * i) % 16 else (7 * i) % 16
  }

  function Shift(i: nat): (s: nat)
    ensures 0 < s < 32
  {
    if i < 16 then [7, 12, 17, 22][i % 4]
    else if i < 32 then [5, 9, 14, 20][i % 4]
    else if i < 48 then [4, 11, 16, 23][i % 4]
    else [6, 10, 15, 21][i % 4]
  }

  function TableF(i: nat): uint32 {
    if i == 0 then 0xD76AA478
    else if i == 1 then 0xE8C7B756
    else if i == 2 then 0x242070DB
    else if i == 3 then 0xC1BDCEEE
    else if i == 4 then 0xF57C0FAF
    else if i == 5 then 0x4787C62A
    else if i == 6 then 0xA8304613
    else if i == 7 then 0xFD469501
    else if i == 8 then 0x698098D8
    else if i == 9 then 0x8B44F7AF
    else if i == 10 then 0xFFFF5BB1
    else if i == 11 then 0x895CD7BE
    else if i == 12 then 0x6B901122
    else if i == 13 then 0xFD987193
    else if i == 14 then 0xA679438E
    else 0x49B40821
  }

  function TableG(i: nat): uint32 {
    if i == 16 then 0xF61E2562
    else if i == 17 then 0xC040B340
    else if i == 18 then 0x265E5A51
    else if i == 19 then 0xE9B6C7AA
    else if i == 20 then 0xD62F105D
    else if i == 21 then 0x02441453
    else if i == 22 then 0xD8A1E681
    else if i == 23 then 0xE7D3FBC8
    else if i == 24 then 0x21E1CDE6
    else if i == 25 then 0xC33707D6
    else if i == 26 then 0xF4D50D87
    else if i == 27 then 0x455A14ED
    else if i == 28 then 0xA9E3E905
    else if i == 29 then 0xFCEFA3F8
    else if i == 30 then 0x676F02D9
    else 0x8D2A4C8A
  }

  function TableH(i: nat): uint32 {
    if i == 32 then 0xFFFA3942
    else if i == 33 then 0x8771F681
    else if i == 34 then 0x6D9D6122
    else if i == 35 then 0xFDE5380C
    else if i == 36 then 0xA4BEEA44
    else if i == 37 then 0x4BDECFA9
    else if i == 38 then 0xF6BB4B60
    else if i == 39 then 0xBEBFBC70
    else if i == 40 then 0x289B7EC6
    else if i == 41 then 0xEAA127FA
    else if i == 42 then 0xD4EF3085
    else if i == 43 then 0x04881D05
    else if i == 44 then 0xD9D4D039
    else if i == 45 then 0xE6DB99E5
    else if i == 46 then 0x1FA27CF8
    else 0xC4AC5665
  }

  function TableI(i: nat): uint32 {
    if i == 48 then 0xF4292244
    else if i == 49 then 0x432AFF97
    else if i == 50 then 0xAB9423A7
    else if i == 51 then 0xFC93A039
    else if i == 52 then 0x655B59C3
    else if i == 53 then 0x8F0CCC92
    else if i == 54 then 0xFFEFF47D
    else if i == 55 then 0x85845DD1
    else if i == 56 then 0x6FA87E4F
    else if i == 57 then 0xFE2CE6E0
    else if i == 58 then 0xA3014314
    else if i == 59 then 0x4E0811A1
    else if i == 60 then 0xF7537E82
    else if i == 61 then 0xBD3AF235
    else if i == 62 then 0x2AD7D2BB
    else 0xEB86D391
  }

  /** The integer part of 2^32 times the absolute value of sin(i + 1). */
  function Sine(i: nat): uint32 {
    if i < 16 then TableF(i) else if i < 32 then TableG(i) else if i < 48 then TableH(i) else TableI(i)
  }

  /** A circular shift to the left. */
  function S(x: uint32, n: nat): uint32
    requires 0 < n < 32
  {
    ((x as bv32 << n) | (x as bv32 >> (32 - n))) as uint32
  }

  /** Operation i: the registers change roles after each one. */
  function Step(q: Quad, x: seq<uint32>, i: nat): Quad
    requires |x| == 16
  {
    Quad(q.d, Add(q.b, S(Add(Add(Add(q.a, Auxiliary(i, q.b, q.c, q.d)), x[Index(i)]), Sine(i)), Shift(i))), q.b, q.c)
  }

  function Steps(q: Quad, x: seq<uint32>, i: nat, n: nat): Quad
    requires |x| == 16
    decreases n
  {
    if n == 0 then q else Steps(Step(q, x, i), x, i + 1, n - 1)
  }

  function Plus(p: Quad, q: Quad): Quad { Quad(Add(p.a, q.a), Add(p.b, q.b), Add(p.c, q.c), Add(p.d, q.d)) }

  /** A word, low-order byte first. */
  function WordAt(data: seq<byte>, i: nat): uint32
    requires i + 4 <= |data|
  {
    var p: int, q: int, r: int, s: int := data[i], data[i + 1], data[i + 2], data[i + 3];
    p + 0x100 * q + 0x1_0000 * r + 0x100_0000 * s
  }

  function Words(data: Block): seq<uint32> { seq(16, i requires 0 <= i < 16 => WordAt(data, 4 * i)) }

  /** Each word is used once in each of the four rounds. */
  function Process(q: Quad, data: Block): Quad {
    var x := Words(data);
    Plus(q, Steps(q, x, 0, 4 * |x|))
  }

  // ---- the unrolled form ----

  function F1(x: uint32, y: uint32, z: uint32): uint32 {
    var (x, y, z) := (x as bv32, y as bv32, z as bv32);
    (z ^ (x & (y ^ z))) as uint32
  }

  function F2(x: uint32, y: uint32, z: uint32): uint32 {
    var (x, y, z) := (x as bv32, y as bv32, z as bv32);
    (y ^ (z & (x ^ y))) as uint32
  }

  function F3(x: uint32, y: uint32, z: uint32): uint32 { (x as bv32 ^ y as bv32 ^ z as bv32) as uint32 }

  function F4(x: uint32, y: uint32, z: uint32): uint32 {
    var (x, y, z) := (x as bv32, y as bv32, z as bv32);
    (y ^ (x | !z)) as uint32
  }

  function P(f: uint32, a: uint32, b: uint32, x: uint32, s: nat, t: uint32): uint32
    requires 0 < s < 32
  {
    Add(S(Add(a, Add(Add(f, x), t)), s), b)
  }

  lemma FirstForm(x: bv32, y: bv32, z: bv32)
    ensures z ^ (x & (y ^ z)) == (x & y) | (!x & z)
  {
  }

  lemma SecondForm(x: bv32, y: bv32, z: bv32)
    ensures y ^ (z & (x ^ y)) == (x & z) | (y & !z)
  {
  }

  /** The two rewritten auxiliary functions are those of the standard. */
  lemma CodeIsAuxiliary(i: nat, x: uint32, y: uint32, z: uint32)
    ensures Code(i, x, y, z) == Auxiliary(i, x, y, z)
  {
    if i < 16 { FirstForm(x as bv32, y as bv32, z as bv32); }
    else if i < 32 { SecondForm(x as bv32, y as bv32, z as bv32); }
  }

  lemma ModSum(a: int, b: int)
    ensures (a % TWO_TO_THE_32 + b) % TWO_TO_THE_32 == (a + b) % TWO_TO_THE_32
  {
  }

  lemma SumRegrouped(a: uint32, f: uint32, x: uint32, t: uint32)
    ensures Add(a, Add(Add(f, x), t)) == Add(Add(Add(a, f), x), t)
  {
    ModSum(f + x, t);
    ModSum(f + x + t, a);
    ModSum(a + f, x);
    ModSum(a + f + x, t);
  }

  function Code(i: nat, x: uint32, y: uint32, z: uint32): uint32 {
    if i < 16 then F1(x, y, z) else if i < 32 then F2(x, y, z) else if i < 48 then F3(x, y, z) else F4(x, y, z)
  }

  /** The macro's i-th use. */
  function PAt(x: seq<uint32>, i: nat, a: uint32, b: uint32, c: uint32, d: uint32): uint32
    requires |x| == 16
  {
    P(Code(i, b, c, d), a, b, x[Index(i)], Shift(i), Sine(i))
  }

  lemma PAtIsStep(x: seq<uint32>, i: nat, q: Quad)
    requires |x| == 16
    ensures Step(q, x, i) == Quad(q.d, PAt(x, i, q.a, q.b, q.c, q.d), q.b, q.c)
  {
    hide S, Index, Sine, Shift, Code, Auxiliary;
    CodeIsAuxiliary(i, q.b, q.c, q.d);
    PIsOperation(Code(i, q.b, q.c, q.d), q.a, q.b, x[Index(i)], Shift(i), Sine(i));
  }

  lemma PIsOperation(f: uint32, a: uint32, b: uint32, x: uint32, s: nat, t: uint32)
    requires 0 < s < 32
    ensures P(f, a, b, x, s, t) == Add(b, S(Add(Add(Add(a, f), x), t), s))
  {
    hide S;
    SumRegrouped(a, f, x, t);
  }

  /** Four uses of the macro keep the names of the registers in place. */
  lemma FourSteps(x: seq<uint32>, i: nat, q: Quad, r: Quad)
    requires |x| == 16
    requires r.a == PAt(x, i, q.a, q.b, q.c, q.d)
    requires r.d == PAt(x, i + 1, q.d, r.a, q.b, q.c)
    requires r.c == PAt(x, i + 2, q.c, r.d, r.a, q.b)
    requires r.b == PAt(x, i + 3, q.b, r.c, r.d, r.a)
    ensures Steps(q, x, i, 4) == r
  {
    hide PAt, Step;
    PAtIsStep(x, i, q);
    PAtIsStep(x, i + 1, Quad(q.d, r.a, q.b, q.c));
    PAtIsStep(x, i + 2, Quad(q.c, r.d, r.a, q.b));
    PAtIsStep(x, i + 3, Quad(q.b, r.c, r.d, r.a));
  }

  lemma {:induction false} StepsSplit(q: Quad, x: seq<uint32>, i: nat, n: nat, m: nat)
    requires |x| == 16
    ensures Steps(q, x, i, n + m) == Steps(Steps(q, x, i, n), x, i + n, m)
    decreases n
  {
    hide Step;
    if n > 0 { StepsSplit(Step(q, x, i), x, i + 1, n - 1, m); }
  }

  lemma JoinSteps(x: seq<uint32>, i: nat, q: Quad)
    requires |x| == 16
    ensures Steps(q, x, i, 16) == Steps(Steps(Steps(Steps(q, x, i, 4), x, i + 4, 4), x, i + 8, 4), x, i + 12, 4)
  {
    hide Steps;
    StepsSplit(q, x, i, 4, 12);
    StepsSplit(Steps(q, x, i, 4), x, i + 4, 4, 8);
    StepsSplit(Steps(Steps(q, x, i, 4), x, i + 4, 4), x, i + 8, 4, 4);
  }

  /** Round 1 of md5_process. */
  method FirstRound(x: seq<uint32>, q: Quad) returns (r: Quad)
    requires |x| == 16
    ensures r == Steps(q, x, 0, 16)
  {
    hide Steps, P, F1, F2, F3, F4;
    var A, B, C, D := q.a, q.b, q.c, q.d;
    ghost var p := q;
    A := P(F1(B, C, D), A, B, x[0], 7, 0xD76AA478);
    D := P(F1(A, B, C), D, A, x[1], 12, 0xE8C7B756);
    C := P(F1(D, A, B), C, D, x[2], 17, 0x242070DB);
    B := P(F1(C, D, A), B, C, x[3], 22, 0xC1BDCEEE);
    FourSteps(x, 0, p, Quad(A, B, C, D));
    p := Quad(A, B, C, D);
    A := P(F1(B, C, D), A, B, x[4], 7, 0xF57C0FAF);
    D := P(F1(A, B, C), D, A, x[5], 12, 0x4787C62A);
    C := P(F1(D, A, B), C, D, x[6], 17, 0xA8304613);
    B := P(F1(C, D, A), B, C, x[7], 22, 0xFD469501);
    FourSteps(x, 4, p, Quad(A, B, C, D));
    p := Quad(A, B, C, D);
    A := P(F1(B, C, D), A, B, x[8], 7, 0x698098D8);
    D := P(F1(A, B, C), D, A, x[9], 12, 0x8B44F7AF);
    C := P(F1(D, A, B), C, D, x[10], 17, 0xFFFF5BB1);
    B := P(F1(C, D, A), B, C, x[11], 22, 0x895CD7BE);
    FourSteps(x, 8, p, Quad(A, B, C, D));
    p := Quad(A, B, C, D);
    A := P(F1(B, C, D), A, B, x[12], 7, 0x6B901122);
    D := P(F1(A, B, C), D, A, x[13], 12, 0xFD987193);
    C := P(F1(D, A, B), C, D, x[14], 17, 0xA679438E);
    B := P(F1(C, D, A), B, C, x[15], 22, 0x49B40821);
    FourSteps(x, 12, p, Quad(A, B, C, D));
    JoinSteps(x, 0, q);
    r := Quad(A, B, C, D);
  }

  /** Round 2 of md5_process. */
  method SecondRound(x: seq<uint32>, q: Quad) returns (r: Quad)
    requires |x| == 16
    ensures r == Steps(q, x, 16, 16)
  {
    hide Steps, P, F1, F2, F3, F4;
    var A, B, C, D := q.a, q.b, q.c, q.d;
    ghost var p := q;
    A := P(F2(B, C, D), A, B, x[1], 5, 0xF61E2562);
    D := P(F2(A, B, C), D, A, x[6], 9, 0xC040B340);
    C := P(F2(D, A, B), C, D, x[11], 14, 0x265E5A51);
    B := P(F2(C, D, A), B, C, x[0], 20, 0xE9B6C7AA);
    FourSteps(x, 16, p, Quad(A, B, C, D));
    p := Quad(A, B, C, D);
    A := P(F2(B, C, D), A, B, x[5], 5, 0xD62F105D);
    D := P(F2(A, B, C), D, A, x[10], 9, 0x02441453);
    C := P(F2(D, A, B), C, D, x[15], 14, 0xD8A1E681);
    B := P(F2(C, D, A), B, C, x[4], 20, 0xE7D3FBC8);
    FourSteps(x, 20, p, Quad(A, B, C, D));
    p := Quad(A, B, C, D);
    A := P(F2(B, C, D), A, B, x[9], 5, 0x21E1CDE6);
    D := P(F2(A, B, C), D, A, x[14], 9, 0xC33707D6);
    C := P(F2(D, A, B), C, D, x[3], 14, 0xF4D50D87);
    B := P(F2(C, D, A), B, C, x[8], 20, 0x455A14ED);
    FourSteps(x, 24, p, Quad(A, B, C, D));
    p := Quad(A, B, C, D);
    A := P(F2(B, C, D), A, B, x[13], 5, 0xA9E3E905);
    D := P(F2(A, B, C), D, A, x[2], 9, 0xFCEFA3F8);
    C := P(F2(D, A, B), C, D, x[7], 14, 0x676F02D9);
    B := P(F2(C, D, A), B, C, x[12], 20, 0x8D2A4C8A);
    FourSteps(x, 28, p, Quad(A, B, C, D));
    JoinSteps(x, 16, q);
    r := Quad(A, B, C, D);
  }

  /** Round 3 of md5_process. */
  method ThirdRound(x: seq<uint32>, q: Quad) returns (r: Quad)
    requires |x| == 16
    ensures r == Steps(q, x, 32, 16)
  {
    hide Steps, P, F1, F2, F3, F4;
    var A, B, C, D := q.a, q.b, q.c, q.d;
    ghost var p := q;
    A := P(F3(B, C, D), A, B, x[5], 4, 0xFFFA3942);
    D := P(F3(A, B, C), D, A, x[8], 11, 0x8771F681);
    C := P(F3(D, A, B), C, D, x[11], 16, 0x6D9D6122);
    B := P(F3(C, D, A), B, C, x[14], 23, 0xFDE5380C);
    FourSteps(x, 32, p, Quad(A, B, C, D));
    p := Quad(A, B, C, D);
    A := P(F3(B, C, D), A, B, x[1], 4, 0xA4BEEA44);
    D := P(F3(A, B, C), D, A, x[4], 11, 0x4BDECFA9);
    C := P(F3(D, A, B), C, D, x[7], 16, 0xF6BB4B60);
    B := P(F3(C, D, A), B, C, x[10], 23, 0xBEBFBC70);
    FourSteps(x, 36, p, Quad(A, B, C, D));
    p := Quad(A, B, C, D);
    A := P(F3(B, C, D), A, B, x[13], 4, 0x289B7EC6);
    D := P(F3(A, B, C), D, A, x[0], 11, 0xEAA127FA);
    C := P(F3(D, A, B), C, D, x[3], 16, 0xD4EF3085);
    B := P(F3(C, D, A), B, C, x[6], 23, 0x04881D05);
    FourSteps(x, 40, p, Quad(A, B, C, D));
    p := Quad(A, B, C, D);
    A := P(F3(B, C, D), A, B, x[9], 4, 0xD9D4D039);
    D := P(F3(A, B, C), D, A, x[12], 11, 0xE6DB99E5);
    C := P(F3(D, A, B), C, D, x[15], 16, 0x1FA27CF8);
    B := P(F3(C, D, A), B, C, x[2], 23, 0xC4AC5665);
    FourSteps(x, 44, p, Quad(A, B, C, D));
    JoinSteps(x, 32, q);
    r := Quad(A, B, C, D);
  }

  /** Round 4 of md5_process. */
  method FourthRound(x: seq<uint32>, q: Quad) returns (r: Quad)
    requires |x| == 16
    ensures r == Steps(q, x, 48, 16)
  {
    hide Steps, P, F1, F2, F3, F4;
    var A, B, C, D := q.a, q.b, q.c, q.d;
    ghost var p := q;
    A := P(F4(B, C, D), A, B, x[0], 6, 0xF4292244);
    D := P(F4(A, B, C), D, A, x[7], 10, 0x432AFF97);
    C := P(F4(D, A, B), C, D, x[14], 15, 0xAB9423A7);
    B := P(F4(C, D, A), B, C, x[5], 21, 0xFC93A039);
    FourSteps(x, 48, p, Quad(A, B, C, D));
    p := Quad(A, B, C, D);
    A := P(F4(B, C, D), A, B, x[12], 6, 0x655B59C3);
    D := P(F4(A, B, C), D, A, x[3], 10, 0x8F0CCC92);
    C := P(F4(D, A, B), C, D, x[10], 15, 0xFFEFF47D);
    B := P(F4(C, D, A), B, C, x[1], 21, 0x85845DD1);
    FourSteps(x, 52, p, Quad(A, B, C, D));
    p := Quad(A, B, C, D);
    A := P(F4(B, C, D), A, B, x[8], 6, 0x6FA87E4F);
    D := P(F4(A, B, C), D, A, x[15], 10, 0xFE2CE6E0);
    C := P(F4(D, A, B), C, D, x[6], 15, 0xA3014314);
    B := P(F4(C, D, A), B, C, x[13], 21, 0x4E0811A1);
    FourSteps(x, 56, p, Quad(A, B, C, D));
    p := Quad(A, B, C, D);
    A := P(F4(B, C, D), A, B, x[4], 6, 0xF7537E82);
    D := P(F4(A, B, C), D, A, x[11], 10, 0xBD3AF235);
    C := P(F4(D, A, B), C, D, x[2], 15, 0x2AD7D2BB);
    B := P(F4(C, D, A), B, C, x[9], 21, 0xEB86D391);
    FourSteps(x, 60, p, Quad(A, B, C, D));
    JoinSteps(x, 48, q);
    r := Quad(A, B, C, D);
  }

  // ---- hashing a whole message, as in sections 3.1 to 3.5 of RFC 1321 ----

  const INITIAL := Quad(0x67452301, 0xEFCDAB89, 0x98BADCFE, 0x10325476)

  /** The complete blocks of the data, one after the other. */
  function Hash(q: Quad, data: seq<byte>): Quad
    decreases |data|
  {
    hide *;
    if |data| < 64 then q else Hash(Process(q, data[..64]), data[64..])
  }

  /** A word as four bytes, low-order byte first. */
  function WordBytes(n: uint32): seq<byte> {
    [n % 0x100, n / 0x100 % 0x100, n / 0x1_0000 % 0x100, n / 0x100_0000]
  }

  lemma WordBytesRead(n: uint32)
    ensures WordAt(WordBytes(n), 0) == n
  {
    var m := n / 0x100;
    var l := m / 0x100;
    assert n / 0x1_0000 == l && n / 0x100_0000 == l / 0x100;
    assert n == 0x100 * m + n % 0x100 && m == 0x100 * l + m % 0x100 && l == 0x100 * (l / 0x100) + l % 0x100;
  }

  /** The length in bits modulo 2^64, low-order word first. */
  function LengthField(n: nat): seq<byte> {
    WordBytes(8 * n % TWO_TO_THE_32) + WordBytes(8 * n / TWO_TO_THE_32 % TWO_TO_THE_32)
  }

  function Padding(n: nat): seq<byte> { [0x80] + seq((55 - n) % 64, i => 0) }

  lemma PaddedLength(n: nat)
    ensures (n + |Padding(n)|) % 64 == 56 && 1 <= |Padding(n)| <= 64
  {
  }

  function Encode(q: Quad): seq<byte> { WordBytes(q.a) + WordBytes(q.b) + WordBytes(q.c) + WordBytes(q.d) }

  /** The padded message, with n in the length field. */
  function Padded(message: seq<byte>, n: nat): seq<byte> { message + Padding(|message|) + LengthField(n) }

  function DigestCounting(message: seq<byte>, n: nat): (d: seq<byte>)
    ensures |d| == 16
  {
    hide Padded;
    Encode(Hash(INITIAL, Padded(message, n)))
  }

  function Digest(message: seq<byte>): (d: seq<byte>)
    ensures |d| == 16
  {
    DigestCounting(message, |message|)
  }

  /** The field tells lengths apart up to 2^61 bytes, and no further. */
  lemma LengthFieldIff(n: nat, m: nat)
    ensures LengthField(n) == LengthField(m) <==> n % 0x2000_0000_0000_0000 == m % 0x2000_0000_0000_0000
  {
    hide WordBytes;
    LengthFieldWords(n);
    LengthFieldWords(m);
    TwoWords(n);
    TwoWords(m);
    if n % 0x2000_0000_0000_0000 == m % 0x2000_0000_0000_0000 { SameWords(n, m); }
  }

  lemma LengthFieldWords(n: nat)
    ensures WordAt(LengthField(n), 0) == 8 * n % TWO_TO_THE_32
    ensures WordAt(LengthField(n), 4) == 8 * n / TWO_TO_THE_32 % TWO_TO_THE_32
  {
    WordBytesRead(8 * n % TWO_TO_THE_32);
    WordBytesRead(8 * n / TWO_TO_THE_32 % TWO_TO_THE_32);
  }

  lemma SameWords(n: nat, m: nat)
    requires n % 0x2000_0000_0000_0000 == m % 0x2000_0000_0000_0000
    ensures 8 * n % TWO_TO_THE_32 == 8 * m % TWO_TO_THE_32
    ensures 8 * n / TWO_TO_THE_32 % TWO_TO_THE_32 == 8 * m / TWO_TO_THE_32 % TWO_TO_THE_32
  {
    TwoWords(n);
    TwoWords(m);
  }

  lemma TwoWords(n: nat)
    ensures 8 * n % TWO_TO_THE_32 + TWO_TO_THE_32 * (8 * n / TWO_TO_THE_32 % TWO_TO_THE_32) == 8 * (n % 0x2000_0000_0000_0000)
  {
    var a, b := n / 0x2000_0000_0000_0000, n % 0x2000_0000_0000_0000;
    var h, l := 8 * b / TWO_TO_THE_32, 8 * b % TWO_TO_THE_32;
    assert 8 * n == TWO_TO_THE_32 * (TWO_TO_THE_32 * a + h) + l;
    Divided(TWO_TO_THE_32 * a + h, l);
    Divided(a, h);
  }

  lemma Divided(quotient: nat, rest: nat)
    requires rest < TWO_TO_THE_32
    ensures (TWO_TO_THE_32 * quotient + rest) / TWO_TO_THE_32 == quotient
    ensures (TWO_TO_THE_32 * quotient + rest) % TWO_TO_THE_32 == rest
  {
  }

  // ---- hashing piece by piece ----

  function Tail(message: seq<byte>): seq<byte> { message[|message| - |message| % 64..] }

  function State(message: seq<byte>): Quad { Hash(INITIAL, message) }

  lemma StateMeans(message: seq<byte>)
    ensures State(message) == Hash(INITIAL, message)
  {
  }

  lemma {:induction false} HashIgnoresShort(q: Quad, message: seq<byte>, part: seq<byte>)
    requires |message| % 64 + |part| < 64
    ensures Hash(q, message + part) == Hash(q, message)
    decreases |message|
  {
    hide Process;
    if |message| >= 64 {
      assert (message + part)[..64] == message[..64] && (message + part)[64..] == message[64..] + part;
      HashIgnoresShort(Process(q, message[..64]), message[64..], part);
    }
  }

  lemma KeepsShort(message: seq<byte>, part: seq<byte>)
    requires |message| % 64 + |part| < 64
    ensures State(message + part) == State(message) && Tail(message + part) == Tail(message) + part
    ensures |message + part| % 64 == |message| % 64 + |part|
  {
    hide Hash;
    HashIgnoresShort(INITIAL, message, part);
  }

  lemma CutsOff(message: seq<byte>, part: seq<byte>)
    requires |message| >= 64
    ensures (message + part)[..64] == message[..64] && (message + part)[64..] == message[64..] + part
    ensures Tail(message[64..]) == Tail(message) && |message[64..]| % 64 == |message| % 64
  {
  }

  lemma {:induction false} HashTakesBlock(q: Quad, message: seq<byte>, part: seq<byte>)
    requires |message| % 64 + |part| == 64
    ensures Hash(q, message + part) == Process(Hash(q, message), Tail(message) + part)
    decreases |message|
  {
    hide Process;
    if |message| >= 64 {
      CutsOff(message, part);
      hide Tail;
      HashTakesBlock(Process(q, message[..64]), message[64..], part);
    } else {
      assert (message + part)[..64] == message + part && (message + part)[64..] == [];
      assert Hash(Process(q, message + part), []) == Process(q, message + part);
    }
  }

  lemma FillsBlock(message: seq<byte>, part: seq<byte>)
    requires |message| % 64 + |part| == 64
    ensures State(message + part) == Process(State(message), Tail(message) + part) && Tail(message + part) == []
  {
    hide Hash, Process;
    HashTakesBlock(INITIAL, message, part);
  }

  lemma SameRemainder(count: nat, length: nat)
    requires (count - length) % TWO_TO_THE_32 == 0
    ensures count % TWO_TO_THE_32 % 64 == length % 64
  {
  }

  lemma CountsOn(count: nat, length: nat, n: nat)
    requires (count - length) % TWO_TO_THE_32 == 0
    ensures (count + n % TWO_TO_THE_32 - (length + n)) % TWO_TO_THE_32 == 0
  {
  }

  /** The two counter words count modulo 2^64. */
  lemma Carry(count: nat, n: uint32)
    ensures var low, high := count % TWO_TO_THE_32, count / TWO_TO_THE_32 % TWO_TO_THE_32;
      && (count + n) % TWO_TO_THE_32 == Add(low, n)
      && (count + n) / TWO_TO_THE_32 % TWO_TO_THE_32 == if Add(low, n) < n then Add(high, 1) else high
  {
    var low, quotient := count % TWO_TO_THE_32, count / TWO_TO_THE_32;
    ModSum(count, n);
    if low + n < TWO_TO_THE_32 {
      assert Add(low, n) == low + n && (count + n) / TWO_TO_THE_32 == quotient;
    } else {
      assert Add(low, n) == low + n - TWO_TO_THE_32 && (count + n) / TWO_TO_THE_32 == quotient + 1;
      ModSum(quotient, 1);
    }
  }

  /** The bit length taken from the two counter words. */
  lemma BitLength(count: nat)
    ensures var low, high := count % TWO_TO_THE_32, count / TWO_TO_THE_32 % TWO_TO_THE_32;
      && 8 * low % TWO_TO_THE_32 == 8 * count % TWO_TO_THE_32
      && low / 0x2000_0000 + 8 * high % TWO_TO_THE_32 == 8 * count / TWO_TO_THE_32 % TWO_TO_THE_32
  {
    var low, quotient := count % TWO_TO_THE_32, count / TWO_TO_THE_32;
    var u, v := low / 0x2000_0000, low % 0x2000_0000;
    assert 8 * count == TWO_TO_THE_32 * (8 * quotient + u) + 8 * v && 0 <= 8 * v < TWO_TO_THE_32;
    Divided(8 * quotient + u, 8 * v);
    Divided(u, 8 * v);
    EightTimes(quotient, u);
  }

  lemma EightTimes(n: nat, u: nat)
    requires u < 8
    ensures u + 8 * (n % TWO_TO_THE_32) % TWO_TO_THE_32 == (8 * n + u) % TWO_TO_THE_32
  {
    var m, w := n / 0x2000_0000, n % 0x2000_0000;
    var r := 0x2000_0000 * (m % 8) + w;
    assert n == TWO_TO_THE_32 * (m / 8) + r;
    Divided(m / 8, r);
    assert 8 * n + u == TWO_TO_THE_32 * m + (8 * w + u);
    Divided(m, 8 * w + u);
    assert 8 * r == TWO_TO_THE_32 * (m % 8) + 8 * w;
    Divided(m % 8, 8 * w);
  }

  const PADDING: Block := [0x80] + seq(63, i => 0)

  lemma PaddingUsed(n: nat)
    ensures var last := n % 64; var padn := if last < 56 then 56 - last else 120 - last;
      1 <= padn <= 64 && PADDING[..padn] == Padding(n)
  {
    var last := n % 64;
    var padn := if last < 56 then 56 - last else 120 - last;
    assert (55 - n) % 64 == padn - 1;
  }

  function Concat(pieces: seq<seq<byte>>): seq<byte> {
    if pieces == [] then [] else Concat(pieces[..|pieces| - 1]) + pieces[|pieces| - 1]
  }

  /** The bytes that the counter words are told of, when the pieces are hashed one by one. */
  function Counted(pieces: seq<seq<byte>>): nat {
    if pieces == [] then 0 else Counted(pieces[..|pieces| - 1]) + |pieces[|pieces| - 1]| % TWO_TO_THE_32
  }

  /** The rest, in units of 2^32 bytes. */
  function Lost(pieces: seq<seq<byte>>): nat {
    if pieces == [] then 0 else Lost(pieces[..|pieces| - 1]) + |pieces[|pieces| - 1]| / TWO_TO_THE_32
  }

  lemma {:induction false} CountedAndLost(pieces: seq<seq<byte>>)
    ensures Counted(pieces) + TWO_TO_THE_32 * Lost(pieces) == |Concat(pieces)|
  {
    if pieces != [] { CountedAndLost(pieces[..|pieces| - 1]); }
  }

  lemma SameModulo(n: nat, lost: nat)
    ensures n % 0x2000_0000_0000_0000 == (n + TWO_TO_THE_32 * lost) % 0x2000_0000_0000_0000 <==> lost % 0x2000_0000 == 0
  {
    var a, b := n / 0x2000_0000_0000_0000, n % 0x2000_0000_0000_0000;
    var c, d := lost / 0x2000_0000, lost % 0x2000_0000;
    assert n + TWO_TO_THE_32 * lost == 0x2000_0000_0000_0000 * (a + c) + (b + TWO_TO_THE_32 * d);
    Remainder(a + c, b + TWO_TO_THE_32 * d);
  }

  lemma Remainder(quotient: nat, n: nat)
    ensures (0x2000_0000_0000_0000 * quotient + n) % 0x2000_0000_0000_0000 == n % 0x2000_0000_0000_0000
  {
  }

  /** The length that goes into the padding is right exactly when the calls pass, in all, a
      multiple of 2^29 times 2^32 bytes in excess of what they are counted for; in
      particular when every call passes fewer than 2^32 bytes. */
  lemma LengthRightIff(pieces: seq<seq<byte>>)
    ensures LengthField(Counted(pieces)) == LengthField(|Concat(pieces)|) <==> Lost(pieces) % 0x2000_0000 == 0
  {
    hide LengthField, Counted, Lost, Concat;
    CountedAndLost(pieces);
    LengthFieldIff(Counted(pieces), |Concat(pieces)|);
    SameModulo(Counted(pieces), Lost(pieces));
  }

  /** What is hashed is the padded message of the standard under the same condition. */
  lemma PaddedRightIff(pieces: seq<seq<byte>>)
    ensures Padded(Concat(pieces), Counted(pieces)) == Padded(Concat(pieces), |Concat(pieces)|)
      <==> Lost(pieces) % 0x2000_0000 == 0
  {
    hide LengthField, Counted, Lost, Concat, Padding;
    LengthRightIff(pieces);
    var m, n := Concat(pieces), Counted(pieces);
    var front := m + Padding(|m|);
    assert Padded(m, n)[|front|..] == LengthField(n) && Padded(m, |m|)[|front|..] == LengthField(|m|);
  }

  lemma {:induction false} ShortPiecesLoseNothing(pieces: seq<seq<byte>>)
    requires forall i :: 0 <= i < |pieces| ==> |pieces[i]| < TWO_TO_THE_32
    ensures Lost(pieces) == 0
  {
    if pieces != [] { ShortPiecesLoseNothing(pieces[..|pieces| - 1]); }
  }

  lemma OnePiece(piece: seq<byte>)
    ensures Concat([piece]) == piece && Counted([piece]) == |piece| % TWO_TO_THE_32
    ensures Lost([piece]) == |piece| / TWO_TO_THE_32
  {
    assert [piece][..0] == [];
    assert [] + piece == piece;
  }

  /** One call with 2^32 zero bytes: nothing of it is counted, and what is hashed is padded
      for an empty message. */
  lemma LongPieceMiscounted()
    ensures var piece := seq(TWO_TO_THE_32, i => 0);
      Counted([piece]) == 0 && Padded(Concat([piece]), Counted([piece])) != Padded(piece, |piece|)
  {
    hide Padded;
    var piece := seq(TWO_TO_THE_32, i => 0);
    OnePiece(piece);
    PaddedRightIff([piece]);
  }

  // ---- HMAC, as in section 2 of RFC 2104 ----

  function Xor(x: byte, y: byte): byte { (x as bv8 ^ y as bv8) as byte }

  function KeyBlock(k: seq<byte>): Block
    requires |k| <= 64
  {
    k + seq(64 - |k|, i => 0)
  }

  function XorAll(block: Block, pad: byte): Block { seq(64, i requires 0 <= i < 64 => Xor(pad, block[i])) }

  function InnerPad(k: seq<byte>): Block
    requires |k| <= 64
  {
    XorAll(KeyBlock(k), 0x36)
  }

  function OuterPad(k: seq<byte>): Block
    requires |k| <= 64
  {
    XorAll(KeyBlock(k), 0x5C)
  }

  /** The pads of a key of one byte: 0x36 and 0x5C behind it, and the key's byte 0x0B
      changed by them. */
  lemma PadsOfOneByte(i: nat)
    requires 1 <= i < 64
    ensures InnerPad([0x0B])[0] == 0x3D && InnerPad([0x0B])[i] == 0x36
    ensures OuterPad([0x0B])[0] == 0x57 && OuterPad([0x0B])[i] == 0x5C
  {
    assert Xor(0x36, 0x0B) == 0x3D && Xor(0x36, 0) == 0x36;
    assert Xor(0x5C, 0x0B) == 0x57 && Xor(0x5C, 0) == 0x5C;
  }

  /** The construction for a key of at most 64 bytes, with n as the inner length. */
  function HmacCounting(k: seq<byte>, text: seq<byte>, n: nat): seq<byte>
    requires |k| <= 64
  {
    Digest(OuterPad(k) + DigestCounting(InnerPad(k) + text, n))
  }

  /** Longer keys are hashed first. */
  function ShortKey(key: seq<byte>): (k: seq<byte>)
    ensures |k| <= 64
  {
    if |key| > 64 then Digest(key) else key
  }

  function Hmac(key: seq<byte>, text: seq<byte>): seq<byte> {
    HmacCounting(ShortKey(key), text, |InnerPad(ShortKey(key)) + text|)
  }

  /** The formula of RFC 2104: the outer pad comes before the digest of the inner pad and
      the text. */
  lemma HmacFormula(key: seq<byte>, text: seq<byte>)
    ensures |key| <= 64 ==> Hmac(key, text) == Digest(OuterPad(key) + Digest(InnerPad(key) + text))
    ensures |key| > 64 ==>
      Hmac(key, text) == Digest(OuterPad(Digest(key)) + Digest(InnerPad(Digest(key)) + text))
  {
    hide DigestCounting;
  }

  /** The key as the program hashes it. */
  function KeyUsed(key: seq<byte>): (k: seq<byte>)
    ensures |k| <= 64
  {
    if |key| > 64 then DigestCounting(key, |key| % TWO_TO_THE_32) else key
  }

  /** With lengths counted right, what the calls compute is the construction. */
  lemma HmacOfPieces(key: seq<byte>, pieces: seq<seq<byte>>)
    requires Lost([key]) % 0x2000_0000 == 0 && Lost(pieces) % 0x2000_0000 == 0
    ensures HmacCounting(KeyUsed(key), Concat(pieces), 64 + Counted(pieces)) == Hmac(key, Concat(pieces))
  {
    hide Padded, Concat, Counted, Lost, InnerPad, OuterPad;
    OnePiece(key);
    PaddedRightIff([key]);
    assert KeyUsed(key) == ShortKey(key);
    InnerPadded(ShortKey(key), pieces);
  }

  lemma InnerPadded(k: seq<byte>, pieces: seq<seq<byte>>)
    requires |k| <= 64 && Lost(pieces) % 0x2000_0000 == 0
    ensures Padded(InnerPad(k) + Concat(pieces), 64 + Counted(pieces)) ==
      Padded(InnerPad(k) + Concat(pieces), |InnerPad(k) + Concat(pieces)|)
  {
    hide LengthField, Counted, Lost, Concat, Padding, InnerPad;
    CountedAndLost(pieces);
    LengthFieldIff(64 + Counted(pieces), 64 + |Concat(pieces)|);
    SameModulo(64 + Counted(pieces), Lost(pieces));
  }

  lemma PadAlone(pad: byte)
    requires pad == 0x36 || pad == 0x5C
    ensures Xor(pad, 0) == pad
  {
  }

  // ---- the context ----

  /** md5_context. */
  class Context {
    var total0: uint32
    var total1: uint32
    var state: Quad
    const buffer: array<byte>
    const ipad: array<byte>
    const opad: array<byte>
    /** What has been hashed since the last start, and how many bytes were counted. */
    ghost var message: seq<byte>
    ghost var counted: nat

    ghost predicate Shape() reads this {
      && buffer.Length == ipad.Length == opad.Length == 64
      && buffer != ipad && buffer != opad && ipad != opad
    }

    ghost predicate Valid() reads this, buffer {
      && Shape()
      && total0 == counted % TWO_TO_THE_32 && total1 == counted / TWO_TO_THE_32 % TWO_TO_THE_32
      && (counted - |message|) % TWO_TO_THE_32 == 0
      && state == State(message) && buffer[..|message| % 64] == Tail(message)
    }

    constructor ()
      ensures Shape() && fresh(buffer) && fresh(ipad) && fresh(opad)
    {
      buffer, ipad, opad := new byte[64](i => 0), new byte[64](i => 0), new byte[64](i => 0);
      total0, total1, state := 0, 0, Quad(0, 0, 0, 0);
      message, counted := [], 0;
    }

    /** The keyed state: the pads of the key are in place, and the inner one and the text
        are hashed, counted as n bytes. */
    ghost predicate Keyed(k: seq<byte>, text: seq<byte>, n: nat)
      requires |k| <= 64
      reads this, buffer, ipad, opad
    {
      && Valid() && ipad[..] == InnerPad(k) && opad[..] == OuterPad(k)
      && message == InnerPad(k) + text && counted == n
    }

    /** md5_starts. */
    method Starts()
      requires Shape()
      modifies this
      ensures Valid() && message == [] && counted == 0
    {
      total0, total1 := 0, 0;
      state := Quad(0x67452301, 0xEFCDAB89, 0x98BADCFE, 0x10325476);
      message, counted := [], 0;
    }

    /** md5_process. */
    method ProcessBlock(data: Block)
      modifies this`state
      ensures state == Process(old(state), data)
    {
      hide Steps;
      var x := Words(data);
      var q := FirstRound(x, state);
      q := SecondRound(x, q);
      q := ThirdRound(x, q);
      q := FourthRound(x, q);
      StepsSplit(state, x, 0, 16, 48);
      StepsSplit(Steps(state, x, 0, 16), x, 16, 16, 32);
      StepsSplit(Steps(Steps(state, x, 0, 16), x, 16, 16), x, 32, 16, 16);
      state := Quad(Add(state.a, q.a), Add(state.b, q.b), Add(state.c, q.c), Add(state.d, q.d));
    }

    /** The copy into the buffer behind the bytes it holds. */
    method CopyIn(left: nat, input: seq<byte>)
      requires Shape() && left + |input| <= 64
      modifies buffer
      ensures buffer[..left + |input|] == old(buffer[..left]) + input
    {
      forall k | 0 <= k < |input| { buffer[left + k] := input[k]; }
    }

    /** md5_update. Only the low 32 bits of the length are counted. */
    method Update(input: seq<byte>)
      requires Valid()
      modifies this, buffer
      ensures Valid() && message == old(message) + input
      ensures counted == old(counted) + |input| % TWO_TO_THE_32
    {
      hide Process, State, Tail;
      if input == [] {
        assert message + input == message;
        return;
      }
      SameRemainder(counted, |message|);
      CountsOn(counted, |message|, |input|);
      var left := total0 % 64;
      var fill := 64 - left;
      Count(|input| % TWO_TO_THE_32);
      left := Absorb(left, fill, input);
    }

    /** Adds to the two counter words. */
    method Count(ilen: uint32)
      requires total0 == counted % TWO_TO_THE_32 && total1 == counted / TWO_TO_THE_32 % TWO_TO_THE_32
      modifies this`total0, this`total1, this`counted
      ensures total0 == counted % TWO_TO_THE_32 && total1 == counted / TWO_TO_THE_32 % TWO_TO_THE_32
      ensures counted == old(counted) + ilen
    {
      Carry(counted, ilen);
      total0 := Add(total0, ilen);
      if total0 < ilen { total1 := Add(total1, 1); }
      counted := counted + ilen;
    }

    method Absorb(held: nat, fill: nat, input: seq<byte>) returns (left: nat)
      requires Shape() && held == |message| % 64 && fill == 64 - held
      requires state == State(message) && buffer[..held] == Tail(message)
      modifies this`state, this`message, buffer
      ensures message == old(message) + input && left == |message| % 64
      ensures state == State(message) && buffer[..left] == Tail(message)
    {
      hide Process, State, Tail;
      var rest := input;
      left := held;
      if left != 0 && |rest| >= fill {
        CopyIn(left, rest[..fill]);
        FillsBlock(message, rest[..fill]);
        assert buffer[..64] == buffer[..];
        ProcessBlock(buffer[..]);
        message := message + rest[..fill];
        rest := rest[fill..];
        left := 0;
      }
      while |rest| >= 64
        invariant left == |message| % 64 && message + rest == old(message) + input
        invariant state == State(message) && buffer[..left] == Tail(message)
        invariant left == 0 || |rest| < 64 - left
        decreases |rest|
      {
        FillsBlock(message, rest[..64]);
        assert Tail(message) + rest[..64] == rest[..64];
        ProcessBlock(rest[..64]);
        message := message + rest[..64];
        rest := rest[64..];
      }
      KeepsShort(message, rest);
      if rest != [] {
        CopyIn(left, rest);
        left := left + |rest|;
      }
      message := message + rest;
    }

    /** md5_finish. */
    method Finish() returns (output: seq<byte>)
      requires Valid()
      modifies this, buffer
      ensures output == DigestCounting(old(message), old(counted))
      ensures old(counted) == |old(message)| ==> output == Digest(old(message))
    {
      hide State, WordBytes, Padding, Hash;
      var high: uint32 := (total0 / 0x2000_0000 + 8 * total1 % TWO_TO_THE_32) % TWO_TO_THE_32;
      var low: uint32 := 8 * total0 % TWO_TO_THE_32;
      BitLength(counted);
      var msglen := WordBytes(low) + WordBytes(high);
      assert msglen == LengthField(counted);
      SameRemainder(counted, |message|);
      PaddingUsed(|message|);
      var last := total0 % 64;
      var padn := if last < 56 then 56 - last else 120 - last;
      Update(PADDING[..padn]);
      Update(msglen);
      output := WordBytes(state.a) + WordBytes(state.b) + WordBytes(state.c) + WordBytes(state.d);
      StateMeans(message);
    }

    /** md5_hmac_starts. */
    method HmacStarts(key: seq<byte>)
      requires Shape()
      modifies this, buffer, ipad, opad
      ensures Keyed(KeyUsed(key), [], 64)
    {
      hide InnerPad, OuterPad, State, Tail, DigestCounting;
      var k := key;
      if |key| > 64 { k := OneShot(key); }
      SetPads(k);
      HmacReset(k); // the same two calls
    }

    method SetPads(k: seq<byte>)
      requires Shape() && |k| <= 64
      modifies ipad, opad
      ensures ipad[..] == InnerPad(k) && opad[..] == OuterPad(k)
    {
      hide XorAll, KeyBlock, Xor;
      forall i | 0 <= i < 64 { ipad[i] := 0x36; }
      forall i | 0 <= i < 64 { opad[i] := 0x5C; }
      for i := 0 to |k|
        invariant forall j :: 0 <= j < 64 ==> ipad[j] == (if j < i then Xor(0x36, k[j]) else 0x36)
        invariant forall j :: 0 <= j < 64 ==> opad[j] == (if j < i then Xor(0x5C, k[j]) else 0x5C)
      {
        ipad[i] := Xor(ipad[i], k[i]);
        opad[i] := Xor(opad[i], k[i]);
      }
      PadsReady(k, ipad[..], 0x36);
      PadsReady(k, opad[..], 0x5C);
    }

    /** md5_hmac_update. */
    method HmacUpdate(ghost k: seq<byte>, ghost text: seq<byte>, ghost n: nat, input: seq<byte>)
      requires |k| <= 64 && Keyed(k, text, n)
      modifies this, buffer
      ensures Keyed(k, text + input, n + |input| % TWO_TO_THE_32)
    {
      hide InnerPad, OuterPad, State, Tail;
      Update(input);
      assert InnerPad(k) + text + input == InnerPad(k) + (text + input);
    }

    /** md5_hmac_finish. */
    method HmacFinish(ghost k: seq<byte>, ghost text: seq<byte>, ghost n: nat) returns (output: seq<byte>)
      requires |k| <= 64 && Keyed(k, text, n)
      modifies this, buffer
      ensures Shape() && ipad[..] == InnerPad(k) && opad[..] == OuterPad(k)
      ensures output == HmacCounting(k, text, n)
    {
      hide InnerPad, OuterPad, State, Tail, DigestCounting;
      var tmpbuf := Finish();
      Starts();
      ghost var outer := OuterPad(k);
      Update(opad[..]);
      Update(tmpbuf);
      assert [] + outer + tmpbuf == outer + tmpbuf;
      output := Finish();
    }

    /** md5_hmac_reset: ready for another text under the same key. */
    method HmacReset(ghost k: seq<byte>)
      requires |k| <= 64 && Shape() && ipad[..] == InnerPad(k) && opad[..] == OuterPad(k)
      modifies this, buffer
      ensures Keyed(k, [], 64)
    {
      hide InnerPad, OuterPad, State, Tail;
      Starts();
      ghost var inner := InnerPad(k);
      Update(ipad[..]);
      assert [] + inner == inner == inner + [];
    }
  }

  lemma PadsReady(k: seq<byte>, pads: seq<byte>, pad: byte)
    requires |k| <= 64 && |pads| == 64
    requires pad == 0x36 || pad == 0x5C
    requires forall j :: 0 <= j < 64 ==> pads[j] == (if j < |k| then Xor(pad, k[j]) else pad)
    ensures pads == XorAll(KeyBlock(k), pad)
  {
    hide Xor;
    forall j | 0 <= j < 64 ensures pads[j] == Xor(pad, KeyBlock(k)[j]) {
      PadAlone(pad);
    }
  }

  lemma DigestRight(pieces: seq<seq<byte>>)
    requires Lost(pieces) % 0x2000_0000 == 0
    ensures DigestCounting(Concat(pieces), Counted(pieces)) == Digest(Concat(pieces))
  {
    hide Padded, Concat, Counted, Lost;
    PaddedRightIff(pieces);
  }

  /** md5, for inputs of any length. */
  method OneShot(input: seq<byte>) returns (output: seq<byte>)
    ensures output == DigestCounting(input, |input| % TWO_TO_THE_32)
    ensures |input| / TWO_TO_THE_32 % 0x2000_0000 == 0 ==> output == Digest(input)
  {
    hide DigestCounting, Digest, State, Tail;
    var ctx := new Context();
    ctx.Starts();
    ctx.Update(input);
    assert [] + input == input;
    output := ctx.Finish();
    OnePiece(input);
    if |input| / TWO_TO_THE_32 % 0x2000_0000 == 0 { DigestRight([input]); }
  }

  /** The loop of md5_file, for any pieces: however the message is cut into updates, the
      digest is that of the whole, with the bytes counted that the calls are counted for. */
  method HashPieces(pieces: seq<seq<byte>>) returns (output: seq<byte>)
    ensures output == DigestCounting(Concat(pieces), Counted(pieces))
    ensures Lost(pieces) % 0x2000_0000 == 0 ==> output == Digest(Concat(pieces))
    ensures (forall i :: 0 <= i < |pieces| ==> |pieces[i]| < TWO_TO_THE_32) ==> output == Digest(Concat(pieces))
  {
    hide DigestCounting, Digest, State, Tail;
    var ctx := new Context();
    ctx.Starts();
    for i := 0 to |pieces|
      invariant fresh(ctx) && fresh(ctx.buffer) && ctx.Valid()
      invariant ctx.message == Concat(pieces[..i]) && ctx.counted == Counted(pieces[..i])
    {
      ctx.Update(pieces[i]);
      assert pieces[..i + 1][..i] == pieces[..i];
    }
    assert pieces[..|pieces|] == pieces;
    output := ctx.Finish();
    if forall i :: 0 <= i < |pieces| ==> |pieces[i]| < TWO_TO_THE_32 { ShortPiecesLoseNothing(pieces); }
    if Lost(pieces) % 0x2000_0000 == 0 { DigestRight(pieces); }
  }

  /** HMAC of a text cut into updates, for keys and pieces of any length. */
  method HmacPieces(key: seq<byte>, pieces: seq<seq<byte>>) returns (output: seq<byte>)
    ensures output == HmacCounting(KeyUsed(key), Concat(pieces), 64 + Counted(pieces))
    ensures Lost([key]) % 0x2000_0000 == 0 && Lost(pieces) % 0x2000_0000 == 0 ==> output == Hmac(key, Concat(pieces))
  {
    hide DigestCounting, Digest, State, Tail, HmacCounting, KeyUsed, Hmac, InnerPad, OuterPad;
    var ctx := new Context();
    ctx.HmacStarts(key);
    ghost var k := KeyUsed(key);
    for i := 0 to |pieces|
      invariant fresh(ctx) && fresh(ctx.buffer) && ctx.Keyed(k, Concat(pieces[..i]), 64 + Counted(pieces[..i]))
    {
      ctx.HmacUpdate(k, Concat(pieces[..i]), 64 + Counted(pieces[..i]), pieces[i]);
      assert pieces[..i + 1][..i] == pieces[..i];
    }
    assert pieces[..|pieces|] == pieces;
    output := ctx.HmacFinish(k, Concat(pieces), 64 + Counted(pieces));
    if Lost([key]) % 0x2000_0000 == 0 && Lost(pieces) % 0x2000_0000 == 0 { HmacOfPieces(key, pieces); }
  }
}
