/** What encrypting with a stream of words has to satisfy, whatever makes the stream. */
module Keystream {

  /** A text from word `position` of the stream on. */
  function Crypt<W>(xor: (W, W) -> W, stream: nat -> W, position: nat, text: seq<W>): seq<W> {
    seq(|text|, i requires 0 <= i < |text| => xor(text[i], stream(position + i)))
  }

  ghost predicate Cancels<W(!new)>(xor: (W, W) -> W) { forall x, y :: xor(xor(x, y), y) == x }

  /** Decrypting with the same stream from the same place gives the text back. */
  lemma DecryptUndoesEncrypt<W(!new)>(xor: (W, W) -> W, stream: nat -> W, position: nat, text: seq<W>)
    requires Cancels(xor)
    ensures Crypt(xor, stream, position, Crypt(xor, stream, position, text)) == text
  {
    var coded := Crypt(xor, stream, position, text);
    forall i | 0 <= i < |text| ensures Crypt(xor, stream, position, coded)[i] == text[i] {
      assert coded[i] == xor(text[i], stream(position + i));
    }
  }

  /** Encrypting in two calls is encrypting in one. */
  lemma SplitChangesNothing<W>(xor: (W, W) -> W, stream: nat -> W, position: nat, a: seq<W>, b: seq<W>)
    ensures Crypt(xor, stream, position, a + b) ==
      Crypt(xor, stream, position, a) + Crypt(xor, stream, position + |a|, b)
  {
    var c := Crypt(xor, stream, position + |a|, b);
    forall i | |a| <= i < |a + b| ensures Crypt(xor, stream, position, a + b)[i] == c[i - |a|] {
      assert position + |a| + (i - |a|) == position + i;
    }
  }

  /** How many words a call of `size` bytes works on: a last partial word counts in full. */
  function WordsIn(size: nat): nat { (size + 3) / 4 }

  /** Two calls use as many words as one just when the first size is a multiple of 4, the
      second is, or the two partial words do not fit in one. */
  lemma WordsOfSplit(a: nat, b: nat)
    ensures WordsIn(a) + WordsIn(b) == WordsIn(a + b) <==> a % 4 == 0 || b % 4 == 0 || a % 4 + b % 4 > 4
  {
    assert a == 4 * (a / 4) + a % 4 && b == 4 * (b / 4) + b % 4;
    assert WordsIn(a) == a / 4 + (a % 4 + 3) / 4 && WordsIn(b) == b / 4 + (b % 4 + 3) / 4;
    assert WordsIn(a + b) == a / 4 + b / 4 + (a % 4 + b % 4 + 3) / 4;
  }
}
