/** The stream cipher of PSO for the GameCube: a shift register of 521 words, replaced in
    place a block at a time. A word is its 32 bits, the most significant first. */
module GcCipher {

  import opened Keystream

  const MIX: nat := 521
  const TAP: nat := 32

  type Bits = b: seq<bool> | |b| == 32 witness seq(32, i => false)

  function Zeros(n: nat): seq<bool> { seq(n, i => false) }

  function Xor(x: Bits, y: Bits): Bits { seq(32, i requires 0 <= i < 32 => x[i] != y[i]) }

  function And(x: Bits, y: Bits): Bits { seq(32, i requires 0 <= i < 32 => x[i] && y[i]) }

  function ShiftLeft(x: Bits, n: nat): Bits
    requires n <= 32
  {
    x[n..] + Zeros(n)
  }

  function ShiftRight(x: Bits, n: nat): Bits
    requires n <= 32
  {
    Zeros(n) + x[..32 - n]
  }

  type Block = x: seq<Bits> | |x| == MIX witness seq(MIX, i => seq(32, j => false))

  /** The generator without its blocks: x[n] = x[n - 521] xor x[n - 32]. */
  function Word(x: Block, n: nat): Bits {
    if n < MIX then x[n] else Xor(Word(x, n - MIX), Word(x, n - TAP))
  }

  lemma NextWord(x: Block, n: nat)
    ensures Word(x, n + MIX) == Xor(Word(x, n), Word(x, n + MIX - TAP))
  {
  }

  lemma FirstWords(x: Block)
    ensures forall i :: 0 <= i < MIX ==> Word(x, i) == x[i]
  {
  }

  // ---- key creation ----

  const TWO_TO_THE_32 := 0x1_0000_0000

  type uint32 = x: int | 0 <= x < TWO_TO_THE_32

  /** One step of the congruential generator that makes the seed bits. */
  function Congruential(s: uint32): uint32 { (s * 0x5D588B65 % TWO_TO_THE_32 + 1) % TWO_TO_THE_32 }

  function Congruentials(seed: uint32, n: nat): uint32 {
    if n == 0 then seed else Congruential(Congruentials(seed, n - 1))
  }

  lemma CongruentialsMeans(seed: uint32, n: nat)
    ensures Congruentials(seed, 0) == seed && Congruentials(seed, n + 1) == Congruential(Congruentials(seed, n))
  {
  }

  /** The first values from the seed 0. */
  lemma FirstCongruentials()
    ensures Congruentials(0, 1) == 1 && Congruentials(0, 2) == 0x5D588B66
  {
    assert Congruential(0) == 1 && Congruential(1) == 0x5D588B66;
  }

  /** The n-th seed bit: the top bit after n + 1 steps. */
  function SeedBit(seed: uint32, n: nat): bool { Congruentials(seed, n + 1) >= 0x8000_0000 }

  lemma SeedBitIsTop(seed: uint32, n: nat)
    ensures SeedBit(seed, n) <==> Congruentials(seed, n + 1) / 0x8000_0000 == 1
  {
  }

  /** Seed word k takes 32 seed bits, the first one lowest. */
  function SeedWord(seed: uint32, k: nat): Bits { seq(32, t requires 0 <= t < 32 => SeedBit(seed, 32 * k + 31 - t)) }

  /** The masks 0xFF800000 and 0x007FFFFF. */
  function High9(): Bits { seq(32, i => i < 9) }

  function Low23(): Bits { seq(32, i => i >= 9) }

  /** Word i of the key before mixing. */
  function Expanded(seed: uint32, i: nat): Bits {
    if i < 16 then SeedWord(seed, i)
    else if i == 16 then
      Xor(Xor(ShiftRight(SeedWord(seed, 0), 9), ShiftLeft(SeedWord(seed, 16), 23)), SeedWord(seed, 15))
    else
      Xor(Expanded(seed, i - 1),
          Xor(And(ShiftLeft(Expanded(seed, i - 17), 23), High9()), And(ShiftRight(Expanded(seed, i - 16), 9), Low23())))
  }

  lemma ExpandedMeans(seed: uint32, i: nat)
    ensures i < 16 ==> Expanded(seed, i) == SeedWord(seed, i)
    ensures i == 16 ==>
      Expanded(seed, i) == Xor(Xor(ShiftRight(SeedWord(seed, 0), 9), ShiftLeft(SeedWord(seed, 16), 23)), SeedWord(seed, 15))
    ensures i > 16 ==>
      Expanded(seed, i) == Xor(Expanded(seed, i - 1), Xor(And(ShiftLeft(Expanded(seed, i - 17), 23), High9()),
                                                          And(ShiftRight(Expanded(seed, i - 16), 9), Low23())))
  {
  }

  function Created(seed: uint32): Block { seq(MIX, i requires 0 <= i => Expanded(seed, i)) }

  function Stream(x: Block): nat -> Bits { (n: nat) => Word(x, n) }

  function XorWords(): (Bits, Bits) -> Bits { (x: Bits, y: Bits) => Xor(x, y) }

  lemma XorTwice(x: Bits, y: Bits)
    ensures Xor(Xor(x, y), y) == x
  {
  }

  /** What one cipher encrypts, another one that has created its keys from the same seed
      and is at the same place decrypts. */
  lemma DecryptUndoesEncrypt(seed: uint32, position: nat, text: seq<Bits>)
    ensures var stream := Stream(Created(seed));
      Crypt(XorWords(), stream, position, Crypt(XorWords(), stream, position, text)) == text
  {
    hide Xor;
    forall x, y ensures XorWords()(XorWords()(x, y), y) == x { XorTwice(x, y); }
    Keystream.DecryptUndoesEncrypt(XorWords(), Stream(Created(seed)), position, text);
  }

  // ---- the whole stream is one shift-register sequence of bits ----

  /** The bits of the stream, the most significant of each word first, behind the nine low
      bits of seed word 16, which are used up in making word 16. */
  function StreamBit(seed: uint32, m: nat): bool {
    if m < 9 then SeedWord(seed, 16)[23 + m] else Word(Created(seed), (m - 9) / 32)[(m - 9) % 32]
  }

  predicate Recurs(f: nat -> bool, m: nat, p: nat, q: nat)
    requires q <= p <= m
  {
    f(m) == (f(m - p) != f(m - q))
  }

  ghost predicate RecursBefore(f: nat -> bool, m: nat, p: nat, q: nat)
    requires q <= p
  {
    forall s :: p <= s < m ==> Recurs(f, s, p, q)
  }

  /** A recurrence also holds with doubled distances: the middle terms cancel. */
  lemma Doubled(f: nat -> bool, m: nat, p: nat, q: nat)
    requires q <= p && RecursBefore(f, m, p, q)
    ensures RecursBefore(f, m, 2 * p, 2 * q)
  {
    forall s | 2 * p <= s < m ensures Recurs(f, s, 2 * p, 2 * q) {
      assert Recurs(f, s, p, q) && Recurs(f, s - p, p, q) && Recurs(f, s - q, p, q);
      assert s - p - q == s - q - p;
    }
  }

  /** If the doubled recurrence holds at m, and the plain one before m, the plain one holds
      at m as well. */
  lemma Halved(f: nat -> bool, m: nat, p: nat, q: nat)
    requires 0 < q <= p && 2 * p <= m && RecursBefore(f, m, p, q) && Recurs(f, m, 2 * p, 2 * q)
    ensures Recurs(f, m, p, q)
  {
    assert Recurs(f, m - p, p, q) && Recurs(f, m - q, p, q);
    assert m - p - q == m - q - p;
  }

  /** From 32-fold distances, those of the words, to single bits. */
  lemma FromWords(f: nat -> bool, m: nat)
    requires 16672 <= m && RecursBefore(f, m, 521, 32) && Recurs(f, m, 16672, 1024)
    ensures Recurs(f, m, 521, 32)
  {
    Doubled(f, m, 521, 32);
    Doubled(f, m, 1042, 64);
    Doubled(f, m, 2084, 128);
    Doubled(f, m, 4168, 256);
    Halved(f, m, 8336, 512);
    Halved(f, m, 4168, 256);
    Halved(f, m, 2084, 128);
    Halved(f, m, 1042, 64);
    Halved(f, m, 521, 32);
  }

  function Bits32(seed: uint32): nat -> bool { (m: nat) => StreamBit(seed, m) }

  lemma XorBit(x: Bits, y: Bits, t: nat)
    requires t < 32
    ensures Xor(x, y)[t] == (x[t] != y[t])
  {
  }

  lemma WordsRecur(seed: uint32, m: nat)
    requires 16681 <= m
    ensures Recurs(Bits32(seed), m, 16672, 1024)
  {
    hide Word, Xor, Created;
    var n, t := (m - 9) / 32, (m - 9) % 32;
    assert (m - 16672 - 9) / 32 == n - MIX && (m - 16672 - 9) % 32 == t;
    assert (m - 1024 - 9) / 32 == n - TAP && (m - 1024 - 9) % 32 == t;
    NextWord(Created(seed), n - MIX);
    XorBit(Word(Created(seed), n - MIX), Word(Created(seed), n - TAP), t);
  }

  /** Bit t of an expanded word. */
  lemma ExpandedBit(seed: uint32, i: nat, t: nat)
    requires 16 <= i && t < 32
    ensures Expanded(seed, i)[t] ==
      (Expanded(seed, i - 1)[t] !=
        if t >= 9 then Expanded(seed, i - 16)[t - 9]
        else if i == 16 then SeedWord(seed, 16)[t + 23] else Expanded(seed, i - 17)[t + 23])
  {
    hide SeedWord;
    if i == 16 {
      FirstExpandedBit(SeedWord(seed, 0), SeedWord(seed, 16), SeedWord(seed, 15), t);
      assert Expanded(seed, 15) == SeedWord(seed, 15) && Expanded(seed, 0) == SeedWord(seed, 0);
    } else {
      LaterExpandedBit(Expanded(seed, i - 1), Expanded(seed, i - 17), Expanded(seed, i - 16), t);
    }
  }

  lemma FirstExpandedBit(x: Bits, y: Bits, z: Bits, t: nat)
    requires t < 32
    ensures Xor(Xor(ShiftRight(x, 9), ShiftLeft(y, 23)), z)[t] == (z[t] != if t >= 9 then x[t - 9] else y[t + 23])
  {
  }

  lemma LaterExpandedBit(x: Bits, y: Bits, z: Bits, t: nat)
    requires t < 32
    ensures Xor(x, Xor(And(ShiftLeft(y, 23), High9()), And(ShiftRight(z, 9), Low23())))[t] ==
      (x[t] != if t >= 9 then z[t - 9] else y[t + 23])
  {
  }

  lemma CreatedWord(seed: uint32, n: nat)
    requires n < MIX
    ensures Word(Created(seed), n) == Expanded(seed, n)
  {
  }

  lemma FirstWordsRecur(seed: uint32, m: nat)
    requires 521 <= m < 16681
    ensures Recurs(Bits32(seed), m, 521, 32)
  {
    hide Word, Created, Expanded, SeedWord;
    var i, t := (m - 9) / 32, (m - 9) % 32;
    assert (m - 32 - 9) / 32 == i - 1 && (m - 32 - 9) % 32 == t;
    CreatedWord(seed, i);
    CreatedWord(seed, i - 1);
    ExpandedBit(seed, i, t);
    if t >= 9 {
      assert (m - 521 - 9) / 32 == i - 16 && (m - 521 - 9) % 32 == t - 9;
      CreatedWord(seed, i - 16);
    } else if i > 16 {
      assert (m - 521 - 9) / 32 == i - 17 && (m - 521 - 9) % 32 == t + 23;
      CreatedWord(seed, i - 17);
    } else {
      assert m - 521 == t;
    }
  }

  /** Every bit of the stream, however far, is the exclusive or of the bits 521 and 32
      places before it, although the program combines whole words: its key expansion and
      its block mixing continue one and the same sequence. */
  lemma {:induction false} BitsRecur(seed: uint32, m: nat)
    requires 521 <= m
    ensures StreamBit(seed, m) == (StreamBit(seed, m - 521) != StreamBit(seed, m - 32))
  {
    hide StreamBit;
    BitsRecurBefore(seed, m + 1);
    assert Recurs(Bits32(seed), m, 521, 32);
  }

  lemma {:induction false} BitsRecurBefore(seed: uint32, m: nat)
    ensures RecursBefore(Bits32(seed), m, 521, 32)
  {
    hide StreamBit;
    if m > 521 {
      BitsRecurBefore(seed, m - 1);
      if m - 1 < 16681 {
        FirstWordsRecur(seed, m - 1);
      } else {
        WordsRecur(seed, m - 1);
        FromWords(Bits32(seed), m - 1);
      }
    }
  }

  /** CRYPT_SETUP as far as this cipher uses it; pointers into the keys are indices. */
  class Cipher {
    const keys: array<Bits>
    var gcBlockPtr: nat
    /** The first 521 words of the stream, and the number of the one in slot 0. */
    ghost var start: Block
    ghost var base: nat

    ghost predicate Mixed(upTo: nat)
      reads this, keys
    {
      && keys.Length == MIX
      && (forall i :: 0 <= i < upTo && i < MIX ==> keys[i] == Word(start, base + MIX + i))
      && (forall i :: upTo <= i < MIX ==> keys[i] == Word(start, base + i))
    }

    ghost predicate Valid() reads this, keys { Mixed(0) && gcBlockPtr < MIX }

    /** The number of the word the next call gives out. */
    ghost function Position(): nat reads this { base + gcBlockPtr + 1 }

    constructor ()
      ensures keys.Length == MIX && fresh(keys)
    {
      keys := new Bits[MIX](i => seq(32, j => false));
      gcBlockPtr := 0;
      start, base := Created(0), 0;
    }

    /** CRYPT_GC_MixKeys: the next 521 words of the stream, in place. */
    method MixKeys()
      requires Mixed(0)
      modifies keys, this`base, this`gcBlockPtr
      ensures Mixed(0) && base == old(base) + MIX && gcBlockPtr == 0
    {
      hide Word, Xor;
      gcBlockPtr := 0;
      var r5, r6, r7 := 0, 489, 0;
      while r6 != MIX
        invariant r5 + 489 == r6 <= MIX && Mixed(r5) && base == old(base) && gcBlockPtr == 0
        decreases MIX - r6
      {
        NextWord(start, base + r5);
        keys[r5] := Xor(keys[r5], keys[r6]);
        r5, r6 := r5 + 1, r6 + 1;
      }
      while r5 != MIX
        invariant r5 == r7 + TAP && r5 <= MIX && Mixed(r5) && base == old(base) && gcBlockPtr == 0
        decreases MIX - r5
      {
        NextWord(start, base + r5);
        keys[r5] := Xor(keys[r5], keys[r7]);
        r5, r7 := r5 + 1, r7 + 1;
      }
      base := base + MIX;
    }

    /** CRYPT_GC_GetNextKey. */
    method GetNextKey() returns (key: Bits)
      requires Valid()
      modifies this, keys
      ensures Valid() && start == old(start)
      ensures key == Word(start, old(Position())) && Position() == old(Position()) + 1
    {
      hide Word;
      gcBlockPtr := gcBlockPtr + 1;
      if gcBlockPtr == MIX { MixKeys(); }
      key := keys[gcBlockPtr];
    }

    /** The seeding loops of CRYPT_GC_CreateKeys. */
    method FillSeedWords(val: uint32)
      requires keys.Length == MIX
      modifies keys
      ensures forall k :: 0 <= k <= 16 ==> keys[k] == SeedWord(val, k)
    {
      hide Congruential, Congruentials;
      var seed, basekey: Bits := val, Zeros(32);
      CongruentialsMeans(val, 0);
      for x := 0 to 17
        invariant seed == Congruentials(val, 32 * x)
        invariant forall k :: 0 <= k < x ==> keys[k] == SeedWord(val, k)
      {
        for y := 0 to 32
          invariant seed == Congruentials(val, 32 * x + y)
          invariant forall k :: 0 <= k < x ==> keys[k] == SeedWord(val, k)
          invariant forall t :: 0 <= t < y ==> basekey[t] == SeedBit(val, 32 * x + y - 1 - t)
        {
          CongruentialsMeans(val, 32 * x + y);
          seed := Congruential(seed);
          var shifted := ShiftRight(basekey, 1);
          basekey := shifted[0 := seed >= 0x8000_0000];
        }
        keys[x] := basekey;
      }
    }

    /** The expansion loop of CRYPT_GC_CreateKeys. */
    method Expand(seed: uint32)
      requires keys.Length == MIX && gcBlockPtr == 16
      requires forall k :: 0 <= k <= 16 ==> keys[k] == SeedWord(seed, k)
      modifies keys, this`gcBlockPtr
      ensures forall i :: 0 <= i < MIX ==> keys[i] == Expanded(seed, i)
    {
      hide Expanded, SeedWord, Xor, And, ShiftLeft, ShiftRight;
      forall i | 0 <= i <= 16 ensures 0 <= i < 16 ==> keys[i] == Expanded(seed, i) { ExpandedMeans(seed, i); }
      ExpandedMeans(seed, 16);
      keys[gcBlockPtr] := Xor(Xor(ShiftRight(keys[0], 9), ShiftLeft(keys[gcBlockPtr], 23)), keys[15]);
      var source1, source2, source3 := 0, 1, gcBlockPtr;
      gcBlockPtr := gcBlockPtr + 1;
      while gcBlockPtr != MIX
        invariant gcBlockPtr == source1 + 17 == source2 + 16 == source3 + 1 <= MIX
        invariant forall i :: 0 <= i < gcBlockPtr ==> keys[i] == Expanded(seed, i)
        decreases MIX - gcBlockPtr
      {
        ExpandedMeans(seed, gcBlockPtr);
        keys[gcBlockPtr] := Xor(keys[source3], Xor(And(ShiftLeft(keys[source1], 23), High9()),
                                                   And(ShiftRight(keys[source2], 9), Low23())));
        gcBlockPtr := gcBlockPtr + 1;
        source1, source2, source3 := source1 + 1, source2 + 1, source3 + 1;
      }
    }

    /** CRYPT_GC_CreateKeys: the stream starts after three mixes, at the next block. */
    method CreateKeys(seed: uint32)
      requires keys.Length == MIX
      modifies this, keys
      ensures Valid() && start == Created(seed) && Position() == 2084
    {
      hide Word, Expanded, SeedWord;
      FillSeedWords(seed);
      gcBlockPtr := 16;
      Expand(seed);
      start, base := Created(seed), 0;
      FirstWords(start);
      MixKeys();
      MixKeys();
      MixKeys();
      gcBlockPtr := 520;
    }

    /** CRYPT_GC_CryptData on words in the cipher's byte order. */
    method CryptData(data: array<Bits>, size: nat)
      requires Valid() && data != keys && WordsIn(size) <= data.Length
      modifies this, keys, data
      ensures Valid() && start == old(start) && Position() == old(Position()) + WordsIn(size)
      ensures data[..WordsIn(size)] == Crypt(XorWords(), Stream(start), old(Position()), old(data[..WordsIn(size)]))
      ensures data[WordsIn(size)..] == old(data[WordsIn(size)..])
    {
      hide Word, Xor;
      var address := 0;
      while 4 * address < size
        invariant address <= WordsIn(size)
        invariant Valid() && start == old(start) && Position() == old(Position()) + address
        invariant forall i :: 0 <= i < address ==> data[i] == Xor(old(data[i]), Word(start, old(Position()) + i))
        invariant forall i :: address <= i < data.Length ==> data[i] == old(data[i])
      {
        var tmp := GetNextKey();
        data[address] := Xor(data[address], tmp);
        address := address + 1;
      }
    }
  }

  /** The two ends of a connection: separate key tables, the same place in one stream. */
  ghost predicate InStep(a: Cipher, b: Cipher)
    reads a, b, a.keys, b.keys
  {
    && a.Valid() && b.Valid() && a != b && a.keys != b.keys
    && a.start == b.start && a.Position() == b.Position()
  }

  /** Two ciphers that create their keys from one seed are in step. */
  method CreatePair(val: uint32) returns (a: Cipher, b: Cipher)
    ensures InStep(a, b) && fresh(a) && fresh(a.keys) && fresh(b) && fresh(b.keys)
  {
    a := new Cipher();
    b := new Cipher();
    a.CreateKeys(val);
    b.CreateKeys(val);
  }

  /** What one end encrypts the other one decrypts, and they are in step for the next
      message, so that any number of messages gets through. */
  method Transmit(a: Cipher, b: Cipher, data: array<Bits>, size: nat)
    requires InStep(a, b) && data != a.keys && data != b.keys && WordsIn(size) <= data.Length
    modifies a, b, a.keys, b.keys, data
    ensures InStep(a, b) && a.start == old(a.start) && a.Position() == old(a.Position()) + WordsIn(size)
    ensures data[..] == old(data[..])
  {
    hide Word, Xor;
    ghost var n, text := WordsIn(size), data[..WordsIn(size)];
    ghost var rest := data[n..];
    a.CryptData(data, size);
    b.CryptData(data, size);
    forall x, y ensures XorWords()(XorWords()(x, y), y) == x { XorTwice(x, y); }
    Keystream.DecryptUndoesEncrypt(XorWords(), Stream(a.start), old(a.Position()), text);
    assert data[..] == data[..n] + data[n..];
    assert old(data[..]) == text + rest;
  }
}
