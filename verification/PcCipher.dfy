/** The stream cipher of PSO for the PC: a subtractive lagged generator kept in 55 words
    that are replaced in place, a block at a time. */
module PcCipher {

  import opened Keystream

  const MIX: nat := 55

  function Minus(x: bv32, y: bv32): bv32 { x - y }

  function Xor(x: bv32, y: bv32): bv32 { x ^ y }

  type Block = x: seq<bv32> | |x| == MIX witness seq(MIX, i => 0)

  /** The generator without its blocks: x[n] = x[n - 55] - x[n - 24] modulo 2^32. */
  function Word(x: Block, n: nat): bv32 {
    if n < MIX then x[n] else Minus(Word(x, n - 55), Word(x, n - 24))
  }

  lemma NextWord(x: Block, n: nat)
    ensures Word(x, n + 55) == Minus(Word(x, n), Word(x, n + 31))
  {
  }

  lemma MinusSubtracts(x: bv32, y: bv32, d: bv32)
    requires d == Minus(x, y)
    ensures d == x - y
  {
  }

  /** The recurrence with the subtraction modulo 2^32 written out. */
  lemma WordsSubtract(x: Block, n: nat, a: bv32, b: bv32, c: bv32)
    requires a == Word(x, n) && b == Word(x, n + 31) && c == Word(x, n + 55)
    ensures c == a - b
  {
    hide Word, Minus;
    NextWord(x, n);
    MinusSubtracts(a, b, c);
  }

  /** A bit of the result is set exactly if it is set in one of the two words only. */
  lemma XorBits(x: bv32, y: bv32)
    ensures Xor(x, y) == (x & !y) | (!x & y)
  {
  }

  lemma FirstWords(x: Block)
    ensures forall i :: 0 <= i < MIX ==> Word(x, i) == x[i]
  {
  }

  // ---- key creation ----

  /** The differences that fill the key: seed, 1, seed - 1, 1 - (seed - 1), ... */
  function Difference(seed: bv32, j: nat): bv32 {
    if j == 0 then seed else if j == 1 then 1 else Minus(Difference(seed, j - 2), Difference(seed, j - 1))
  }

  lemma DifferenceMeans(seed: bv32, j: nat)
    requires j >= 1
    ensures Difference(seed, 0) == seed && Difference(seed, 1) == 1
    ensures Difference(seed, j + 1) == Minus(Difference(seed, j - 1), Difference(seed, j))
  {
  }

  lemma DifferencesSubtract(seed: bv32, j: nat, a: bv32, b: bv32, c: bv32)
    requires j >= 1 && a == Difference(seed, j - 1) && b == Difference(seed, j) && c == Difference(seed, j + 1)
    ensures c == a - b
  {
    hide Difference, Minus;
    DifferenceMeans(seed, j);
    MinusSubtracts(a, b, c);
  }

  /** The key's slots 1 to 55. */
  function Created(seed: bv32): Block { seq(MIX, i requires 0 <= i => Difference(seed, 21 * (i + 1) % 55)) }

  /** 21 is its own inverse modulo 55, so stepping by 21 reaches every slot. */
  lemma StepsOf21(j: nat)
    requires 1 <= j <= 54
    ensures 1 <= 21 * j % 55 <= 54 && 21 * (21 * j % 55) % 55 == j
  {
    var q, r := 21 * j / 55, 21 * j % 55;
    var m := 8 * j - 21 * q;
    assert 21 * r == 55 * m + j;
    RemainderIs(21 * r, m, j);
  }

  lemma RemainderIs(n: int, m: int, r: nat)
    requires n == 55 * m + r && r < 55
    ensures n % 55 == r
  {
  }

  /** The slots written by the loop of CRYPT_PC_CreateKeys are 1 to 54, each exactly once. */
  lemma EverySlotOnce(k: nat)
    requires 1 <= k <= 54
    ensures 1 <= 21 * k % 55 <= 54 && 21 * (21 * k % 55) % 55 == k
    ensures forall j :: 1 <= j <= 54 && 21 * j % 55 == k ==> j == 21 * k % 55
  {
    StepsOf21(k);
    forall j | 1 <= j <= 54 && 21 * j % 55 == k ensures j == 21 * k % 55 { StepsOf21(j); }
  }

  // ---- encryption ----

  function Stream(x: Block): nat -> bv32 { (n: nat) => Word(x, n) }

  function XorWords(): (bv32, bv32) -> bv32 { (x: bv32, y: bv32) => Xor(x, y) }

  lemma XorTwice(x: bv32, y: bv32)
    ensures Xor(Xor(x, y), y) == x
  {
  }

  /** What one cipher encrypts, another one that has created its keys from the same seed
      and is at the same place decrypts. */
  lemma DecryptUndoesEncrypt(seed: bv32, position: nat, text: seq<bv32>)
    ensures var stream := Stream(Created(seed));
      Crypt(XorWords(), stream, position, Crypt(XorWords(), stream, position, text)) == text
  {
    hide Xor;
    forall x, y ensures XorWords()(XorWords()(x, y), y) == x { XorTwice(x, y); }
    Keystream.DecryptUndoesEncrypt(XorWords(), Stream(Created(seed)), position, text);
  }

  // ---- the byte counter of CRYPT_PC_CryptData ----

  const TWO_TO_THE_32: nat := 0x1_0000_0000

  /** `x += 4` in 32 bits. */
  function NextCounter(x: nat): nat { (x + 4) % TWO_TO_THE_32 }

  /** The value of the counter at the k-th test of the loop. */
  function Counter(k: nat): nat { if k == 0 then 0 else NextCounter(Counter(k - 1)) }

  lemma {:induction false} CounterIsMultiple(k: nat)
    ensures Counter(k) % 4 == 0 && Counter(k) <= 0xFFFF_FFFC
  {
    if k > 0 {
      CounterIsMultiple(k - 1);
      assert Counter(k - 1) + 4 <= TWO_TO_THE_32;
    }
  }

  lemma {:induction false} CounterCounts(k: nat)
    requires 4 * k < TWO_TO_THE_32
    ensures Counter(k) == 4 * k
  {
    if k > 0 { CounterCounts(k - 1); }
  }

  /** The counter gets to a 32-bit size, and the loop ends, just when the size is not among
      the last three: after 0xFFFFFFFC the counter is 0 again. */
  lemma CounterReachesIff(size: nat)
    requires size < TWO_TO_THE_32
    ensures (exists k :: Counter(k) >= size) <==> size <= 0xFFFF_FFFC
  {
    hide Counter;
    if size <= 0xFFFF_FFFC {
      var k := (size + 3) / 4;
      CounterCounts(k);
      assert Counter(k) >= size;
    }
    forall k ensures Counter(k) <= 0xFFFF_FFFC { CounterIsMultiple(k); }
  }

  /** CRYPT_SETUP as far as this cipher uses it. */
  class Cipher {
    const keys: array<bv32>
    var posn: nat
    /** The first 55 words of the stream, and the number of the one in slot 1. */
    ghost var start: Block
    ghost var base: nat

    ghost predicate Mixed(upTo: nat)
      reads this, keys
    {
      && keys.Length == 57
      && (forall i :: 1 <= i < upTo && i <= 55 ==> keys[i] == Word(start, base + 54 + i))
      && (forall i :: upTo <= i <= 55 && 1 <= i ==> keys[i] == Word(start, base + i - 1))
    }

    ghost predicate Valid() reads this, keys { Mixed(1) && 1 <= posn <= 56 }

    /** The number of the word the next call gives out. */
    ghost function Position(): nat
      requires 1 <= posn
      reads this
    {
      base + posn - 1
    }

    constructor ()
      ensures keys.Length == 57 && fresh(keys)
    {
      keys := new bv32[57](i => 0);
      posn := 56;
      start, base := Created(0), 0;
    }

    /** The first loop of CRYPT_PC_MixKeys. */
    method MixFront()
      requires Mixed(1)
      modifies keys
      ensures Mixed(25) && base == old(base)
    {
      hide Word, Minus;
      var eax, edx := 1, 0x18;
      while edx > 0
        invariant eax == 25 - edx && 1 <= eax && Mixed(eax) && base == old(base)
      {
        var esi, ebp := keys[eax + 0x1F], keys[eax];
        NextWord(start, base + eax - 1);
        keys[eax] := Minus(ebp, esi);
        eax, edx := eax + 1, edx - 1;
      }
    }

    /** The second loop. */
    method MixBack()
      requires Mixed(25)
      modifies keys
      ensures Mixed(56) && base == old(base)
    {
      hide Word, Minus;
      var eax, edx := 0x19, 0x1F;
      while edx > 0
        invariant eax == 56 - edx && 25 <= eax && Mixed(eax) && base == old(base)
      {
        var esi, ebp := keys[eax - 0x18], keys[eax];
        NextWord(start, base + eax - 1);
        keys[eax] := Minus(ebp, esi);
        eax, edx := eax + 1, edx - 1;
      }
    }

    /** CRYPT_PC_MixKeys: the next 55 words of the stream, in place. */
    method MixKeys()
      requires Mixed(1)
      modifies keys, this`base
      ensures Mixed(1) && base == old(base) + 55
    {
      hide Word;
      MixFront();
      MixBack();
      ghost var mixed := base;
      base := base + 55;
      forall i | 1 <= i <= 55 ensures keys[i] == Word(start, base + i - 1) {
        assert mixed + 54 + i == base + i - 1;
      }
    }

    /** The loop of CRYPT_PC_CreateKeys. */
    method FillKeys(val: bv32)
      requires keys.Length == 57
      modifies keys
      ensures forall i :: 1 <= i <= 55 ==> keys[i] == Created(val)[i - 1]
    {
      hide Minus, Difference;
      var esi: bv32, ebx, edi := 1, val, 0x15;
      keys[56] := ebx;
      keys[55] := ebx;
      ghost var j := 1;
      DifferenceMeans(val, 1);
      while edi <= 0x46E
        invariant 1 <= j <= 55 && edi == 21 * j && keys[55] == val
        invariant esi == Difference(val, j) && ebx == Difference(val, j - 1)
        invariant forall i :: 1 <= i <= 54 && 21 * i % 55 < j ==> keys[i] == Difference(val, 21 * i % 55)
        decreases 55 - j
      {
        var eax := edi;
        var var1 := eax / 55;
        var edx := eax - var1 * 55;
        StepsOf21(j);
        assert edx == 21 * j % 55;
        Distinct21(j);
        DifferenceMeans(val, j);
        ebx := Minus(ebx, esi);
        edi := edi + 0x15;
        keys[edx] := esi;
        esi := ebx;
        ebx := keys[edx];
        j := j + 1;
      }
      forall i | 1 <= i <= 55 ensures keys[i] == Created(val)[i - 1] {
        if i < 55 { StepsOf21(i); }
      }
    }

    /** CRYPT_PC_CreateKeys: the stream starts after four mixes, at the next block. */
    method CreateKeys(val: bv32)
      requires keys.Length == 57
      modifies this, keys
      ensures Valid() && start == Created(val) && Position() == 275
    {
      hide Word, Created;
      FillKeys(val);
      start, base := Created(val), 0;
      FirstWords(start);
      MixKeys();
      MixKeys();
      MixKeys();
      MixKeys();
      posn := 56;
    }

    /** CRYPT_PC_GetNextKey. */
    method GetNextKey() returns (re: bv32)
      requires Valid()
      modifies this, keys
      ensures Valid() && start == old(start)
      ensures re == Word(start, old(Position())) && Position() == old(Position()) + 1
    {
      hide Word;
      if posn == 56 {
        MixKeys();
        posn := 1;
      }
      re := keys[posn];
      posn := posn + 1;
    }

    /** CRYPT_PC_CryptData on words in the cipher's byte order; for the sizes left out the
        loop does not end, see CounterReachesIff. */
    method CryptData(data: array<bv32>, size: nat)
      requires Valid() && data != keys && WordsIn(size) <= data.Length
      requires size <= 0xFFFF_FFFC
      modifies this, keys, data
      ensures Valid() && start == old(start) && Position() == old(Position()) + WordsIn(size)
      ensures data[..WordsIn(size)] == Crypt(XorWords(), Stream(start), old(Position()), old(data[..WordsIn(size)]))
      ensures data[WordsIn(size)..] == old(data[WordsIn(size)..])
    {
      hide Word, Xor;
      var x := 0;
      ghost var n := 0;
      while x < size
        invariant x == 4 * n && n <= WordsIn(size)
        invariant Valid() && start == old(start) && Position() == old(Position()) + n
        invariant forall i :: 0 <= i < n ==> data[i] == Xor(old(data[i]), Word(start, old(Position()) + i))
        invariant forall i :: n <= i < data.Length ==> data[i] == old(data[i])
      {
        var tmp := data[x / 4];
        var key := GetNextKey();
        data[x / 4] := Xor(tmp, key);
        x, n := NextCounter(x), n + 1;
      }
    }
  }

  /** The two ends of a connection: separate key tables, the same place in one stream. */
  ghost predicate InStep(a: Cipher, b: Cipher)
    reads a, b, a.keys, b.keys
  {
    && a.Valid() && b.Valid() && a != b && a.keys != b.keys
    && a.start == b.start && a.Position() == b.Position()
  }

  /** Two ciphers that create their keys from one seed are in step. */
  method CreatePair(val: bv32) returns (a: Cipher, b: Cipher)
    ensures InStep(a, b) && fresh(a) && fresh(a.keys) && fresh(b) && fresh(b.keys)
  {
    a := new Cipher();
    b := new Cipher();
    a.CreateKeys(val);
    b.CreateKeys(val);
  }

  /** What one end encrypts the other one decrypts, and they are in step for the next
      message, so that any number of messages gets through. */
  method Transmit(a: Cipher, b: Cipher, data: array<bv32>, size: nat)
    requires InStep(a, b) && data != a.keys && data != b.keys && WordsIn(size) <= data.Length
    requires size <= 0xFFFF_FFFC
    modifies a, b, a.keys, b.keys, data
    ensures InStep(a, b) && a.start == old(a.start) && a.Position() == old(a.Position()) + WordsIn(size)
    ensures data[..] == old(data[..])
  {
    hide Word, Xor;
    ghost var n, text := WordsIn(size), data[..WordsIn(size)];
    ghost var rest := data[n..];
    a.CryptData(data, size);
    b.CryptData(data, size);
    forall x, y ensures XorWords()(XorWords()(x, y), y) == x { XorTwice(x, y); }
    Keystream.DecryptUndoesEncrypt(XorWords(), Stream(a.start), old(a.Position()), text);
    assert data[..] == data[..n] + data[n..];
    assert old(data[..]) == text + rest;
  }

  lemma Distinct21(j: nat)
    requires 1 <= j <= 54
    ensures forall i :: 1 <= i <= 54 && i != 21 * j % 55 ==> 21 * i % 55 != j
  {
    forall i | 1 <= i <= 54 && i != 21 * j % 55 ensures 21 * i % 55 != j { StepsOf21(i); }
  }
}
