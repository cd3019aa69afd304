/** The Mersenne Twister MT19937: a state vector stored in reverse and refreshed in place,
    624 words at a time, by unrolled loops that carry one value from turn to turn. */
module MersenneTwister {

  const STATE_SIZE := 624
  const RECURRENCE_OFFSET := 397
  const MATRIX_A: bv32 := 0x9908b0df
  const UPPER_MASK: bv32 := 0x80000000
  const LOWER_MASK: bv32 := 0x7fffffff

  // ---- the recurrence ----

  function Upper(v: bv32): bv32 { v & UPPER_MASK }

  function Lower(v: bv32): bv32 { v & LOWER_MASK }

  function CombineBits(x: bv32, y: bv32): bv32 { Upper(x) | Lower(y) }

  function MatrixMultiply(original: bv32, v: bv32): bv32 {
    original ^ (v >> 1) ^ (if v & 1 == 1 then MATRIX_A else 0)
  }

  type Vector = x: seq<bv32> | |x| == STATE_SIZE witness seq(STATE_SIZE, i => 0)

  /** Word n of the sequence that starts with the words of x:
      X[n + 624] = X[n + 397] ^ twist(upper bit of X[n], lower bits of X[n + 1]). */
  function Word(x: Vector, n: nat): bv32 {
    if n < STATE_SIZE then x[n]
    else MatrixMultiply(Word(x, n - STATE_SIZE + RECURRENCE_OFFSET),
                        CombineBits(Word(x, n - STATE_SIZE), Word(x, n - STATE_SIZE + 1)))
  }

  lemma NextWord(x: Vector, n: nat)
    ensures Word(x, n + STATE_SIZE) == MatrixMultiply(Word(x, n + RECURRENCE_OFFSET), CombineBits(Word(x, n), Word(x, n + 1)))
  {
  }

  // ---- tempering ----

  function Shr11(v: bv32): bv32 { v >> 11 }

  function Shr18(v: bv32): bv32 { v >> 18 }

  function ShiftU(v: bv32): bv32 { v ^ Shr11(v) }

  function ShiftS(v: bv32): bv32 { v ^ ((v << 7) & 0x9d2c5680) }

  function ShiftT(v: bv32): bv32 { v ^ ((v << 15) & 0xefc60000) }

  function ShiftL(v: bv32): bv32 { v ^ Shr18(v) }

  function Temper(v: bv32): bv32 { ShiftL(ShiftT(ShiftS(ShiftU(v)))) }

  function UndoS(v: bv32): bv32 {
    var a := v ^ ((v << 7) & 0x9d2c5680);
    var b := v ^ ((a << 7) & 0x9d2c5680);
    var c := v ^ ((b << 7) & 0x9d2c5680);
    v ^ ((c << 7) & 0x9d2c5680)
  }

  function UndoU(v: bv32): bv32 { v ^ Shr11(v) ^ Shr11(Shr11(v)) }

  lemma XorCancels(v: bv32, a: bv32, w: bv32)
    requires w == v ^ a
    ensures w ^ a == v
  {
  }

  lemma Shr11OfShifted(v: bv32)
    ensures Shr11(v ^ Shr11(v)) == Shr11(v) ^ Shr11(Shr11(v))
  {
  }

  lemma Shr11Twice(v: bv32)
    ensures Shr11(Shr11(v) ^ Shr11(Shr11(v))) == Shr11(Shr11(v))
  {
  }

  lemma Shr11Once(v: bv32)
    ensures Shr11(ShiftU(v)) == Shr11(v) ^ Shr11(Shr11(v))
  {
    hide Shr11;
    Shr11OfShifted(v);
  }

  lemma Shr11Again(v: bv32)
    ensures Shr11(Shr11(ShiftU(v))) == Shr11(Shr11(v))
  {
    hide Shr11, ShiftU;
    Shr11Once(v);
    Shr11Twice(v);
  }

  lemma UndoXors(v: bv32, a: bv32, b: bv32, w: bv32)
    requires w == v ^ a
    ensures w ^ (a ^ b) ^ b == v
  {
  }

  lemma UndoShiftUBy(v: bv32)
    ensures ShiftU(v) ^ (Shr11(v) ^ Shr11(Shr11(v))) ^ Shr11(Shr11(v)) == v
  {
    hide Shr11;
    UndoXors(v, Shr11(v), Shr11(Shr11(v)), ShiftU(v));
  }

  lemma UndoUIs(v: bv32, w: bv32, p: bv32, q: bv32)
    requires Shr11(w) == p && Shr11(p) == q && w ^ p ^ q == v
    ensures UndoU(w) == v
  {
    hide Shr11;
  }

  lemma UndoShiftU(v: bv32)
    ensures UndoU(ShiftU(v)) == v
  {
    hide Shr11, ShiftU, UndoU;
    Shr11Once(v);
    Shr11Again(v);
    UndoShiftUBy(v);
    UndoUIs(v, ShiftU(v), Shr11(v) ^ Shr11(Shr11(v)), Shr11(Shr11(v)));
  }

  lemma UndoShiftS(v: bv32)
    ensures UndoS(ShiftS(v)) == v
  {
  }

  lemma UndoShiftT(v: bv32)
    ensures ShiftT(ShiftT(v)) == v
  {
    assert (v ^ ((v << 15) & 0xefc60000)) ^ (((v ^ ((v << 15) & 0xefc60000)) << 15) & 0xefc60000) == v;
  }

  lemma Shr18OfShifted(v: bv32, a: bv32)
    requires a == Shr18(v)
    ensures Shr18(v ^ a) == a
  {
  }

  lemma Shr18Kept(v: bv32)
    ensures Shr18(ShiftL(v)) == Shr18(v)
  {
    hide Shr18;
    Shr18OfShifted(v, Shr18(v));
  }

  lemma UndoShiftLBy(v: bv32)
    ensures ShiftL(v) ^ Shr18(v) == v
  {
    hide Shr18;
    XorCancels(v, Shr18(v), ShiftL(v));
  }

  lemma UndoShiftL(v: bv32)
    ensures ShiftL(ShiftL(v)) == v
  {
    hide Shr18;
    Shr18Kept(v);
    UndoShiftLBy(v);
  }

  function Untemper(v: bv32): bv32 { UndoU(UndoS(ShiftT(ShiftL(v)))) }

  /** Tempering can be undone, so it loses nothing. */
  lemma UntemperUndoes(v: bv32)
    ensures Untemper(Temper(v)) == v
  {
    hide UndoU, UndoS, ShiftU, ShiftS, ShiftT, ShiftL;
    UndoShiftU(v);
    UndoShiftS(ShiftU(v));
    UndoShiftT(ShiftS(ShiftU(v)));
    UndoShiftL(ShiftT(ShiftS(ShiftU(v))));
  }

  // ---- the sequence can be run backwards ----

  /** The 19937 bits that matter from word n on agree. */
  ghost predicate Agree(x: Vector, y: Vector, n: nat) {
    && Upper(Word(x, n)) == Upper(Word(y, n))
    && forall j :: n < j < n + STATE_SIZE ==> Word(x, j) == Word(y, j)
  }

  lemma UpperOfCombined(x: bv32, y: bv32)
    ensures Upper(CombineBits(x, y)) == Upper(x)
  {
  }

  lemma LowerOfCombined(x: bv32, y: bv32)
    ensures Lower(CombineBits(x, y)) == Lower(y)
  {
  }

  lemma CombineKeepsHalves(x: bv32, y: bv32)
    ensures Upper(CombineBits(x, y)) == Upper(x) && Lower(CombineBits(x, y)) == Lower(y)
    ensures CombineBits(x, x) == x
  {
    UpperOfCombined(x, y);
    LowerOfCombined(x, y);
    assert CombineBits(x, x) == x;
  }

  lemma CombineUsesHalves(x: bv32, y: bv32, x': bv32, y': bv32)
    requires Upper(x) == Upper(x') && Lower(y) == Lower(y')
    ensures CombineBits(x, y) == CombineBits(x', y')
  {
  }

  /** The top bit of MATRIX_A tells whether the lowest bit shifted out was set. */
  lemma MultiplyInjective(m: bv32, v: bv32, w: bv32)
    ensures MatrixMultiply(m, v) == MatrixMultiply(m, w) ==> v == w
  {
  }

  /** Two sequences agree from word n on exactly if they agree from word n + 1 on: a step
      of the generator loses none of the bits that matter. */
  lemma StepIsReversible(x: Vector, y: Vector, n: nat)
    ensures Agree(x, y, n) <==> Agree(x, y, n + 1)
  {
    hide MatrixMultiply, Word, CombineBits, Upper, Lower;
    NextWord(x, n);
    NextWord(y, n);
    CombineKeepsHalves(Word(x, n), Word(x, n + 1));
    CombineKeepsHalves(Word(y, n), Word(y, n + 1));
    if Agree(x, y, n) {
      CombineUsesHalves(Word(x, n), Word(x, n + 1), Word(y, n), Word(y, n + 1));
    }
    if Agree(x, y, n + 1) {
      assert Word(x, n + RECURRENCE_OFFSET) == Word(y, n + RECURRENCE_OFFSET);
      assert Word(x, n + STATE_SIZE) == Word(y, n + STATE_SIZE);
      MultiplyInjective(Word(x, n + RECURRENCE_OFFSET), CombineBits(Word(x, n), Word(x, n + 1)),
                        CombineBits(Word(y, n), Word(y, n + 1)));
      CombineKeepsHalves(Word(x, n + 1), Word(x, n + 1));
      CombineKeepsHalves(Word(y, n + 1), Word(y, n + 1));
      CombineUsesHalves(Word(x, n + 1), Word(x, n + 1), Word(y, n + 1), Word(y, n + 1));
    }
  }

  lemma {:induction false} RunIsReversible(x: Vector, y: Vector, n: nat)
    ensures Agree(x, y, 0) <==> Agree(x, y, n)
  {
    hide Agree;
    if n > 0 {
      RunIsReversible(x, y, n - 1);
      StepIsReversible(x, y, n - 1);
    }
  }

  // ---- degenerate states ----

  const ZEROS: Vector := seq(STATE_SIZE, i => 0)

  lemma {:induction false} ZerosStayZero(n: nat)
    ensures Word(ZEROS, n) == 0
    decreases n
  {
    if n >= STATE_SIZE {
      ZerosStayZero(n - STATE_SIZE);
      ZerosStayZero(n - STATE_SIZE + 1);
      ZerosStayZero(n - STATE_SIZE + RECURRENCE_OFFSET);
    }
  }

  /** All bits that matter are zero. */
  predicate Degenerate(x: Vector) {
    Upper(x[0]) == 0 && forall i :: 1 <= i < STATE_SIZE ==> x[i] == 0
  }

  function Window(x: Vector, n: nat): Vector { seq(STATE_SIZE, i requires 0 <= i => Word(x, n + i)) }

  lemma DegenerateMeansAgree(x: Vector, n: nat)
    ensures Degenerate(Window(x, n)) <==> Agree(x, ZEROS, n)
  {
    hide Word;
    ZerosStayZero(n);
    forall j | n < j < n + STATE_SIZE ensures Window(x, n)[j - n] == Word(x, j) && Word(ZEROS, j) == 0 {
      ZerosStayZero(j);
    }
    assert Window(x, n)[0] == Word(x, n);
    assert Upper(0) == 0;
    if Agree(x, ZEROS, n) {
      forall i | 1 <= i < STATE_SIZE ensures Window(x, n)[i] == 0 {
        assert Word(x, n + i) == Word(ZEROS, n + i);
      }
    }
  }

  /** No run leaves or enters the degenerate states. */
  lemma NeverDegenerates(x: Vector, n: nat)
    ensures Degenerate(x) <==> Degenerate(Window(x, n))
  {
    hide Agree, Degenerate;
    assert x == Window(x, 0);
    DegenerateMeansAgree(x, 0);
    DegenerateMeansAgree(x, n);
    RunIsReversible(x, ZEROS, n);
  }

  lemma TemperOfZero()
    ensures Temper(0) == 0
  {
  }

  lemma SecondIsZero(x: Vector)
    requires Degenerate(x)
    ensures x[1] == 0
  {
  }

  lemma NonZeroIn(x: Vector) returns (i: nat)
    requires !Degenerate(x)
    ensures i < STATE_SIZE && x[i] != 0
  {
    assert Upper(0) == 0;
    i :| i < STATE_SIZE && x[i] != 0;
  }

  /** The generator dies, giving zeros from some call on, exactly from degenerate states,
      and then from the second word on. */
  lemma DeadIffDegenerate(x: Vector, n: nat)
    ensures Degenerate(x) ==> n == 0 || Temper(Word(x, n)) == 0
    ensures Degenerate(x) || exists j :: n <= j < n + STATE_SIZE && Temper(Word(x, j)) != 0
  {
    hide Word, Degenerate, Temper;
    TemperOfZero();
    if Degenerate(x) && n > 0 {
      NeverDegenerates(x, n - 1);
      SecondIsZero(Window(x, n - 1));
    }
    if !Degenerate(x) {
      NeverDegenerates(x, n);
      var i := NonZeroIn(Window(x, n));
      assert Window(x, n)[i] == Word(x, n + i);
      UntemperUndoes(Word(x, n + i));
      UntemperUndoes(0);
      assert Temper(Word(x, n + i)) != 0;
    }
  }

  // ---- seeding ----

  const KNUTH_MULTIPLIER_OLD: bv32 := 69069
  const KNUTH_MULTIPLIER_NEW: bv32 := 1812433253
  const DEFAULT_SEED32_OLD: bv32 := 4357

  function OldStep(v: bv32): bv32 { KNUTH_MULTIPLIER_OLD * v }

  function KnuthOld(seed: bv32, k: nat): bv32 { if k == 0 then seed else OldStep(KnuthOld(seed, k - 1)) }

  function NewStep(v: bv32, k: nat): bv32
    requires k < STATE_SIZE
  {
    ((v >> 30) ^ v) * KNUTH_MULTIPLIER_NEW + k as bv32
  }

  function KnuthNew(seed: bv32, k: nat): bv32
    requires k < STATE_SIZE
  {
    if k == 0 then seed else NewStep(KnuthNew(seed, k - 1), k)
  }

  lemma KnuthOldMeans(seed: bv32, k: nat)
    ensures KnuthOld(seed, 0) == seed && KnuthOld(seed, k + 1) == OldStep(KnuthOld(seed, k))
  {
  }

  lemma KnuthNewMeans(seed: bv32, k: nat)
    requires k + 1 < STATE_SIZE
    ensures KnuthNew(seed, 0) == seed && KnuthNew(seed, k + 1) == NewStep(KnuthNew(seed, k), k + 1)
  {
  }

  /** A zero seed is replaced. */
  function Seed32(seed: bv32): Vector {
    var s := if seed == 0 then DEFAULT_SEED32_OLD else seed;
    seq(STATE_SIZE, k requires 0 <= k => KnuthOld(s, k))
  }

  function Seed32New(seed: bv32): Vector { seq(STATE_SIZE, k requires 0 <= k < STATE_SIZE => KnuthNew(seed, k)) }

  lemma DefaultSeed()
    ensures Seed32(0) == Seed32(DEFAULT_SEED32_OLD)
  {
    assert forall k :: 0 <= k < STATE_SIZE ==> Seed32(0)[k] == Seed32(DEFAULT_SEED32_OLD)[k];
  }

  // ---- published numbers ----

  lemma FirstWords(x: Vector)
    ensures forall i :: 0 <= i < STATE_SIZE ==> Word(x, i) == x[i]
  {
  }

  lemma NumberFrom(u: bv32, v: bv32, m: bv32, x: Vector, i: nat)
    requires i + RECURRENCE_OFFSET < STATE_SIZE && x[i] == u && x[i + 1] == v && x[i + RECURRENCE_OFFSET] == m
    ensures Temper(Word(x, i + STATE_SIZE)) == Temper(MatrixMultiply(m, CombineBits(u, v)))
  {
    hide Word, Temper, MatrixMultiply, CombineBits;
    FirstWords(x);
    NextWord(x, i);
  }

  /** From the words that the default seed gives in places 0 to 5 and 397 to 401, the first
      five numbers are those of the list that was published with MT19937. */
  lemma FirstNumbers(x: Vector)
    requires x[..6] == [4357, 300933633, 1838352333, 1039116329, 1822211541, 2902250641]
    requires x[397..402] == [61989553, 3769009341, 3738362969, 148004933, 530552897]
    ensures Temper(Word(x, 624)) == 3510405877 && Temper(Word(x, 625)) == 4290933890
    ensures Temper(Word(x, 626)) == 2191955339 && Temper(Word(x, 627)) == 564929546
    ensures Temper(Word(x, 628)) == 152112058
  {
    hide Word;
    assert x[..6][0] == x[0] && x[..6][1] == x[1] && x[397..402][0] == x[397];
    NumberFrom(4357, 300933633, 61989553, x, 0);
    assert x[..6][1] == x[1] && x[..6][2] == x[2] && x[397..402][1] == x[398];
    NumberFrom(300933633, 1838352333, 3769009341, x, 1);
    assert x[..6][2] == x[2] && x[..6][3] == x[3] && x[397..402][2] == x[399];
    NumberFrom(1838352333, 1039116329, 3738362969, x, 2);
    assert x[..6][3] == x[3] && x[..6][4] == x[4] && x[397..402][3] == x[400];
    NumberFrom(1039116329, 1822211541, 148004933, x, 3);
    assert x[..6][4] == x[4] && x[..6][5] == x[5] && x[397..402][4] == x[401];
    NumberFrom(1822211541, 2902250641, 530552897, x, 4);
  }

  /** The default seed's first words. */
  lemma DefaultWords()
    ensures Seed32(0)[0] == 4357 && Seed32(0)[1] == 300933633 && Seed32(0)[2] == 1838352333
    ensures Seed32(0)[3] == 1039116329 && Seed32(0)[4] == 1822211541 && Seed32(0)[5] == 2902250641
  {
    var s := DEFAULT_SEED32_OLD;
    assert KnuthOld(s, 1) == 300933633 && KnuthOld(s, 2) == 1838352333;
    assert KnuthOld(s, 3) == 1039116329 && KnuthOld(s, 4) == 1822211541;
    assert KnuthOld(s, 5) == 2902250641;
  }

  /** Eight steps of the old generator at once. */
  lemma EightOn(k: nat, v: bv32, w: bv32)
    requires KnuthOld(DEFAULT_SEED32_OLD, k) == v
    requires OldStep(OldStep(OldStep(OldStep(OldStep(OldStep(OldStep(OldStep(v)))))))) == w
    ensures KnuthOld(DEFAULT_SEED32_OLD, k + 8) == w
  {
    var s := DEFAULT_SEED32_OLD;
    hide OldStep;
    assert KnuthOld(s, k + 2) == OldStep(KnuthOld(s, k + 1));
    assert KnuthOld(s, k + 3) == OldStep(KnuthOld(s, k + 2));
    assert KnuthOld(s, k + 4) == OldStep(KnuthOld(s, k + 3));
    assert KnuthOld(s, k + 5) == OldStep(KnuthOld(s, k + 4));
    assert KnuthOld(s, k + 6) == OldStep(KnuthOld(s, k + 5));
    assert KnuthOld(s, k + 7) == OldStep(KnuthOld(s, k + 6));
  }

  lemma WordsFrom0()
    requires KnuthOld(DEFAULT_SEED32_OLD, 0) == 4357
    ensures KnuthOld(DEFAULT_SEED32_OLD, 56) == 1910438757
  {
    hide KnuthOld;
    EightOn(0, 4357, 2037202853);
    EightOn(8, 2037202853, 2597716549);
    EightOn(16, 2597716549, 3303332069);
    EightOn(24, 3303332069, 1687438213);
    EightOn(32, 1687438213, 1563345445);
    EightOn(40, 1563345445, 2991510725);
    EightOn(48, 2991510725, 1910438757);
  }

  lemma WordsFrom56()
    requires KnuthOld(DEFAULT_SEED32_OLD, 56) == 1910438757
    ensures KnuthOld(DEFAULT_SEED32_OLD, 112) == 2779003333
  {
    hide KnuthOld;
    EightOn(56, 1910438757, 3726226949);
    EightOn(64, 3726226949, 3616113829);
    EightOn(72, 3616113829, 2265507653);
    EightOn(80, 2265507653, 1203920357);
    EightOn(88, 1203920357, 3509610629);
    EightOn(96, 3509610629, 2703066917);
    EightOn(104, 2703066917, 2779003333);
  }

  lemma WordsFrom112()
    requires KnuthOld(DEFAULT_SEED32_OLD, 112) == 2779003333
    ensures KnuthOld(DEFAULT_SEED32_OLD, 168) == 2490453029
  {
    hide KnuthOld;
    EightOn(112, 2779003333, 657391717);
    EightOn(120, 657391717, 4067973893);
    EightOn(128, 4067973893, 3263875493);
    EightOn(136, 3263875493, 3938503749);
    EightOn(144, 3938503749, 1086644965);
    EightOn(152, 1086644965, 1183944069);
    EightOn(160, 1183944069, 2490453029);
  }

  lemma WordsFrom168()
    requires KnuthOld(DEFAULT_SEED32_OLD, 168) == 2490453029
    ensures KnuthOld(DEFAULT_SEED32_OLD, 224) == 699904645
  {
    hide KnuthOld;
    EightOn(168, 2490453029, 2197724869);
    EightOn(176, 2197724869, 354682213);
    EightOn(184, 354682213, 572260357);
    EightOn(192, 572260357, 3211857573);
    EightOn(200, 3211857573, 3942494533);
    EightOn(208, 3942494533, 1961650149);
    EightOn(216, 1961650149, 699904645);
  }

  lemma WordsFrom224()
    requires KnuthOld(DEFAULT_SEED32_OLD, 224) == 699904645
    ensures KnuthOld(DEFAULT_SEED32_OLD, 280) == 2839080165
  {
    hide KnuthOld;
    EightOn(224, 699904645, 1009389861);
    EightOn(232, 1009389861, 4015915973);
    EightOn(240, 4015915973, 2159938149);
    EightOn(248, 2159938149, 1376036101);
    EightOn(256, 1376036101, 1396462501);
    EightOn(264, 1396462501, 2898236997);
    EightOn(272, 2898236997, 2839080165);
  }

  lemma WordsFrom280()
    requires KnuthOld(DEFAULT_SEED32_OLD, 280) == 2839080165
    ensures KnuthOld(DEFAULT_SEED32_OLD, 336) == 1426488133
  {
    hide KnuthOld;
    EightOn(280, 2839080165, 3751991173);
    EightOn(288, 3751991173, 2638730789);
    EightOn(296, 2638730789, 2411882693);
    EightOn(304, 2411882693, 2935820133);
    EightOn(312, 2935820133, 1731348997);
    EightOn(320, 1731348997, 49060005);
    EightOn(328, 49060005, 1426488133);
  }

  lemma WordsFrom336()
    requires KnuthOld(DEFAULT_SEED32_OLD, 336) == 1426488133
    ensures KnuthOld(DEFAULT_SEED32_OLD, 392) == 1401019813
  {
    hide KnuthOld;
    EightOn(336, 1426488133, 2729079269);
    EightOn(344, 2729079269, 3444767877);
    EightOn(352, 3444767877, 3167394597);
    EightOn(360, 3167394597, 153865669);
    EightOn(368, 153865669, 3839956069);
    EightOn(376, 3839956069, 1185214213);
    EightOn(384, 1185214213, 1401019813);
  }

  lemma OldStepOn(k: nat, v: bv32, w: bv32)
    requires KnuthOld(DEFAULT_SEED32_OLD, k) == v && OldStep(v) == w
    ensures KnuthOld(DEFAULT_SEED32_OLD, k + 1) == w
  {
    hide OldStep;
  }

  lemma LaterWords()
    ensures KnuthOld(DEFAULT_SEED32_OLD, 397) == 61989553 && KnuthOld(DEFAULT_SEED32_OLD, 398) == 3769009341
    ensures KnuthOld(DEFAULT_SEED32_OLD, 399) == 3738362969 && KnuthOld(DEFAULT_SEED32_OLD, 400) == 148004933
    ensures KnuthOld(DEFAULT_SEED32_OLD, 401) == 530552897
  {
    StartOfOld();
    hide KnuthOld;
    WordsFrom0();
    WordsFrom56();
    WordsFrom112();
    WordsFrom168();
    WordsFrom224();
    WordsFrom280();
    WordsFrom336();
    OldStepOn(392, 1401019813, 1424285217);
    OldStepOn(393, 1424285217, 2024705389);
    OldStepOn(394, 2024705389, 241355081);
    OldStepOn(395, 241355081, 1386013813);
    OldStepOn(396, 1386013813, 61989553);
    OldStepOn(397, 61989553, 3769009341);
    OldStepOn(398, 3769009341, 3738362969);
    OldStepOn(399, 3738362969, 148004933);
    OldStepOn(400, 148004933, 530552897);
  }

  lemma StartOfOld()
    ensures KnuthOld(DEFAULT_SEED32_OLD, 0) == 4357
  {
  }

  /** The default seed gives the numbers that were published with MT19937. */
  lemma DefaultNumbers()
    ensures var x := Seed32(0);
      && Temper(Word(x, 624)) == 3510405877 && Temper(Word(x, 625)) == 4290933890
      && Temper(Word(x, 626)) == 2191955339 && Temper(Word(x, 627)) == 564929546
      && Temper(Word(x, 628)) == 152112058
  {
    hide KnuthOld, Word, Temper;
    DefaultWords();
    LaterWords();
    var x := Seed32(0);
    assert x[397] == 61989553 && x[398] == 3769009341 && x[399] == 3738362969 && x[400] == 148004933 && x[401] == 530552897;
    assert x[..6] == [4357, 300933633, 1838352333, 1039116329, 1822211541, 2902250641];
    assert x[397..402] == [61989553, 3769009341, 3738362969, 148004933, 530552897];
    FirstNumbers(x);
  }

  /** The newer seeding gives the state words of the reference implementation of MT19937
      for the seed 5489. */
  lemma NewWords()
    ensures KnuthNew(5489, 1) == 1301868182 && KnuthNew(5489, 2) == 2938499221
  {
  }

  /** The multiplier is odd. */
  lemma OldStepKeepsNonZero(v: bv32)
    requires v != 0
    ensures OldStep(v) != 0
  {
  }

  /** No 32-bit seed, zero included, starts a sequence that dies. */
  lemma Seed32NeverDegenerate(seed: bv32, n: nat)
    ensures !Degenerate(Window(Seed32(seed), n))
  {
    hide OldStep;
    var x, s := Seed32(seed), if seed == 0 then DEFAULT_SEED32_OLD else seed;
    assert x[1] == KnuthOld(s, 1) == OldStep(s);
    OldStepKeepsNonZero(s);
    NeverDegenerates(x, n);
  }

  lemma NewStepOfZero(k: nat)
    requires 0 < k < STATE_SIZE
    ensures NewStep(0, k) == k as bv32 != 0
  {
    assert ((0 as bv32 >> 30) ^ 0) * KNUTH_MULTIPLIER_NEW == 0;
  }

  lemma Seed32NewNeverDegenerate(seed: bv32, n: nat)
    ensures !Degenerate(Window(Seed32New(seed), n))
  {
    hide NewStep;
    var x := Seed32New(seed);
    assert x[2] == KnuthNew(seed, 2) == NewStep(x[1], 2);
    NewStepOfZero(2);
    NeverDegenerates(x, n);
  }

  predicate HadNonZero(seeds: Vector) { exists i :: 0 <= i < STATE_SIZE && seeds[i] != 0 }

  /** What mts_seedfull's check is for, and exactly what it misses: it refuses no seed array
      that would do, and lets a degenerate one through exactly when only ignored bits, the
      lower 31 of seeds[0], are set. */
  lemma SeedFullCheck(seeds: Vector, n: nat)
    ensures !HadNonZero(seeds) ==> Degenerate(Window(seeds, n))
    ensures HadNonZero(seeds) ==>
      (Degenerate(Window(seeds, n)) <==> seeds[0] != 0 && Upper(seeds[0]) == 0 && forall i :: 1 <= i < STATE_SIZE ==> seeds[i] == 0)
  {
    hide Word;
    NeverDegenerates(seeds, n);
    assert Upper(0) == 0;
  }

  /** An accepted seed array whose every output after the first is zero. */
  lemma SeedFullMissesOne(n: nat)
    requires n > 0
    ensures var seeds := ZEROS[0 := 1]; HadNonZero(seeds) && Temper(Word(seeds, n)) == 0
  {
    hide Temper, Word;
    var seeds := ZEROS[0 := 1];
    assert seeds[0] != 0;
    assert Upper(1) == 0;
    DeadIffDegenerate(seeds, n);
  }

  // ---- the generator ----

  /** Where the generator is: the vector holds words base .. base + 623, and the next word
      to be given out is base + 624 - ptr. */
  datatype Place = Place(base: nat, ptr: nat)

  function Advance(p: Place): Place {
    if p.ptr == 0 then Place(p.base + STATE_SIZE, STATE_SIZE - 1) else Place(p.base, p.ptr - 1)
  }

  /** mt_state. */
  class Generator {
    const statevec: array<bv32>
    var stateptr: int
    var initialized: bool
    /** The words the sequence starts with, and the number of the vector's first word. */
    ghost var start: Vector
    ghost var base: nat

    /** The vector holds its words in reverse; a state of zeros stands for the default seed. */
    ghost predicate Filled() reads this, statevec {
      && statevec.Length == STATE_SIZE
      && (initialized ==> forall j :: 0 <= j < STATE_SIZE ==> statevec[j] == Word(start, base + STATE_SIZE - 1 - j))
      && (!initialized ==> start == Seed32(0) && base == 0)
    }

    /** In the middle of a refresh: the words above sp are new, those up to sp old. */
    ghost predicate HalfFilled(sp: int)
      requires sp >= -1
      reads this, statevec
    {
      && statevec.Length == STATE_SIZE
      && (forall j :: 0 <= j <= sp && j < STATE_SIZE ==> statevec[j] == Word(start, base + 623 - j))
      && (forall j :: sp < j < STATE_SIZE ==> statevec[j] == Word(start, base + 1247 - j))
    }

    ghost predicate Valid() reads this, statevec {
      Filled() && 0 <= stateptr <= STATE_SIZE && (!initialized ==> stateptr == 0)
    }

    ghost function Here(): Place
      requires 0 <= stateptr
      reads this
    {
      Place(base, stateptr)
    }

    /** Number of the word the next call gives out. */
    ghost function Position(): int reads this { base + STATE_SIZE - stateptr }

    /** A zeroed structure. */
    constructor ()
      ensures Valid() && fresh(statevec) && !initialized
    {
      statevec := new bv32[STATE_SIZE](i => 0);
      stateptr, initialized := 0, false;
      start, base := Seed32(0), 0;
    }

    /** mts_refresh. */
    method Refresh()
      requires Filled()
      modifies this, statevec
      ensures Valid() && initialized && stateptr == STATE_SIZE
      ensures start == old(start) && base == old(base) + STATE_SIZE
      decreases if initialized then 0 else 2
    {
      hide Word, CombineBits, MatrixMultiply;
      if !initialized {
        DefaultSeed();
        SeedWith32(DEFAULT_SEED32_OLD);
        return;
      }
      var value2 := RefreshFront();
      RefreshBack(value2);
      stateptr := STATE_SIZE;
      base := base + STATE_SIZE;
    }

    /** One assignment of the refresh: the next word, front to back. */
    method Store(j: int, word: bv32)
      requires 0 <= j < STATE_SIZE && HalfFilled(j) && word == Word(start, base + 1247 - j)
      modifies statevec
      ensures HalfFilled(j - 1)
    {
      hide Word;
      statevec[j] := word;
    }

    /** The first loop, up to the word whose partner is the last of the old words. */
    method RefreshFront() returns (value2: bv32)
      requires Filled() && initialized
      modifies statevec
      ensures HalfFilled(396) && value2 == Word(start, base + 227)
    {
      hide Word, CombineBits, MatrixMultiply;
      var sp := STATE_SIZE - 1;
      var value1 := statevec[sp];
      for i := (STATE_SIZE - RECURRENCE_OFFSET) / 2 downto 0
        invariant sp == 397 + 2 * i
        invariant HalfFilled(sp) && value1 == Word(start, base + 623 - sp)
      {
        sp := sp - 2;
        value2 := statevec[sp + 1];
        value1 := CombineBits(value1, value2);
        NextWord(start, base + 621 - sp);
        Store(sp + 2, MatrixMultiply(statevec[sp - RECURRENCE_OFFSET + 2], value1));
        value1 := statevec[sp];
        value2 := CombineBits(value2, value1);
        NextWord(start, base + 622 - sp);
        Store(sp + 1, MatrixMultiply(statevec[sp - RECURRENCE_OFFSET + 1], value2));
      }
      sp := sp - 1;
      value2 := statevec[sp];
      value1 := CombineBits(value1, value2);
      NextWord(start, base + 226);
      Store(sp + 1, MatrixMultiply(statevec[sp - RECURRENCE_OFFSET + 1], value1));
    }

    /** The second loop, whose partners are new words, and the wrap-around at the end. */
    method RefreshBack(value: bv32)
      requires HalfFilled(396) && value == Word(start, base + 227)
      modifies statevec
      ensures HalfFilled(-1)
    {
      hide Word, CombineBits, MatrixMultiply;
      var sp, value2 := RECURRENCE_OFFSET - 1, value;
      for i := (RECURRENCE_OFFSET - 1) / 2 downto 0
        invariant sp == 2 * i
        invariant HalfFilled(sp) && value2 == Word(start, base + 623 - sp)
      {
        sp := sp - 2;
        var value1 := statevec[sp + 1];
        value2 := CombineBits(value2, value1);
        NextWord(start, base + 621 - sp);
        Store(sp + 2, MatrixMultiply(statevec[sp + STATE_SIZE - RECURRENCE_OFFSET + 2], value2));
        value2 := statevec[sp];
        value1 := CombineBits(value1, value2);
        NextWord(start, base + 622 - sp);
        Store(sp + 1, MatrixMultiply(statevec[sp + STATE_SIZE - RECURRENCE_OFFSET + 1], value1));
      }
      var value1 := CombineBits(value2, statevec[STATE_SIZE - 1]);
      NextWord(start, base + 623);
      Store(sp, MatrixMultiply(statevec[sp + STATE_SIZE - RECURRENCE_OFFSET], value1));
    }

    /** mts_seed32. */
    method SeedWith32(seed: bv32)
      requires statevec.Length == STATE_SIZE
      modifies this, statevec
      ensures Valid() && initialized && start == Seed32(seed) && Here() == Place(STATE_SIZE, STATE_SIZE)
      decreases 1
    {
      hide KnuthOld, OldStep;
      var s := if seed == 0 then DEFAULT_SEED32_OLD else seed;
      statevec[STATE_SIZE - 1] := s;
      KnuthOldMeans(s, 0);
      var i := STATE_SIZE - 2;
      while i >= 0
        invariant -1 <= i <= STATE_SIZE - 2
        invariant forall j :: i < j < STATE_SIZE ==> statevec[j] == KnuthOld(s, STATE_SIZE - 1 - j)
      {
        KnuthOldMeans(s, STATE_SIZE - 2 - i);
        statevec[i] := OldStep(statevec[i + 1]);
        i := i - 1;
      }
      stateptr, initialized := STATE_SIZE, true;
      start, base := Seed32(seed), 0;
      Refresh();
    }

    /** mts_seed32new. */
    method SeedWith32New(seed: bv32)
      requires statevec.Length == STATE_SIZE
      modifies this, statevec
      ensures Valid() && initialized && start == Seed32New(seed) && Here() == Place(STATE_SIZE, STATE_SIZE)
    {
      hide KnuthNew, NewStep;
      statevec[STATE_SIZE - 1] := seed;
      KnuthNewMeans(seed, 0);
      var i := STATE_SIZE - 2;
      while i >= 0
        invariant -1 <= i <= STATE_SIZE - 2
        invariant forall j :: i < j < STATE_SIZE ==> statevec[j] == KnuthNew(seed, STATE_SIZE - 1 - j)
      {
        KnuthNewMeans(seed, STATE_SIZE - 2 - i);
        statevec[i] := NewStep(statevec[i + 1], STATE_SIZE - 1 - i);
        i := i - 1;
      }
      stateptr, initialized := STATE_SIZE, true;
      start, base := Seed32New(seed), 0;
      Refresh();
    }

    /** mts_seedfull; `accepted` is false where the program aborts. */
    method SeedFull(seeds: Vector) returns (accepted: bool)
      requires statevec.Length == STATE_SIZE
      modifies this, statevec
      ensures accepted <==> HadNonZero(seeds)
      ensures accepted ==> Valid() && initialized && start == seeds && Here() == Place(0, STATE_SIZE)
    {
      accepted := false;
      var i := 0;
      while i < STATE_SIZE
        invariant 0 <= i <= STATE_SIZE
        invariant accepted <==> exists k :: 0 <= k < i && seeds[k] != 0
        invariant forall j :: STATE_SIZE - i <= j < STATE_SIZE ==> statevec[j] == seeds[STATE_SIZE - 1 - j]
      {
        if seeds[i] != 0 { accepted := true; }
        statevec[STATE_SIZE - i - 1] := seeds[i];
        i := i + 1;
      }
      if !accepted { return; }
      stateptr, initialized := STATE_SIZE, true;
      start, base := seeds, 0;
    }

    /** mts_lrand: the next word, tempered. */
    method LRand() returns (value: bv32)
      requires Valid()
      modifies this, statevec
      ensures Valid() && start == old(start) && initialized
      ensures Here() == Advance(old(Here())) && Position() == old(Position()) + 1
      ensures value == Temper(Word(start, old(Position())))
    {
      hide Word, ShiftU, ShiftS, ShiftT, ShiftL;
      if stateptr <= 0 { Refresh(); }
      stateptr := stateptr - 1;
      value := statevec[stateptr];
      value := Temper(value);
    }

    /** mts_llrand: what two calls of mts_lrand give, and where they leave the generator. */
    method LLRand() returns (value: bv64)
      requires Valid()
      modifies this, statevec
      ensures Valid() && start == old(start) && initialized
      ensures Here() == Advance(Advance(old(Here()))) && Position() == old(Position()) + 2
      ensures value == Join(Temper(Word(start, old(Position()))), Temper(Word(start, old(Position()) + 1)))
    {
      hide Word, ShiftU, ShiftS, ShiftT, ShiftL, Join;
      var value1: bv32;
      stateptr := stateptr - 1;
      if stateptr <= 0 {
        if stateptr < 0 {
          Refresh();
          stateptr := stateptr - 1;
          value1 := statevec[stateptr];
        } else {
          value1 := statevec[stateptr];
          Refresh();
        }
      } else {
        value1 := statevec[stateptr];
      }
      value1 := Temper(value1);
      stateptr := stateptr - 1;
      var value2 := Temper(statevec[stateptr]);
      value := Join(value1, value2);
    }
  }

  function Join(high: bv32, low: bv32): bv64 { ((high as bv64) << 32) | low as bv64 }

  /** The first number is the upper half, the second one the lower half. */
  lemma JoinHalves(high: bv32, low: bv32)
    ensures Join(high, low) >> 32 == high as bv64
    ensures Join(high, low) & 0xFFFF_FFFF == low as bv64
  {
  }
}
