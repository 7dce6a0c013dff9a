/** The checker's bitsets: words of 64 bits that stand for a finite set of naturals.

    A machine word is the sequence of its bits, lowest first, and the source's word operators act on it
    bit by bit.
 */
module Bitset {

  function Zeros(n: nat): (bits: seq<bool>)
    ensures |bits| == n && forall i :: 0 <= i < n ==> !bits[i]
  {
    if n == 0 then [] else Zeros(n - 1) + [false]
  }

  type Word = w: seq<bool> | |w| == 64 witness Zeros(64)

  const ZERO: Word := Zeros(64)

  // The word 1 << m.
  function Shifted(m: nat): Word
    requires m < 64
  {
    seq(64, i => i == m)
  }

  function Or(a: Word, b: Word): Word {
    seq(64, i requires 0 <= i < 64 => a[i] || b[i])
  }

  function AndNot(a: Word, b: Word): Word {
    seq(64, i requires 0 <= i < 64 => a[i] && !b[i])
  }

  function Xor(a: Word, b: Word): Word {
    seq(64, i requires 0 <= i < 64 => a[i] != b[i])
  }

  // Bit `pos` of the words, laid out from the lowest bit of the first word.
  predicate Has(words: seq<Word>, pos: nat)
    requires pos < 64 * |words|
  {
    words[pos / 64][pos % 64]
  }

  // The set the words stand for.
  ghost function Bits(words: seq<Word>): set<nat> {
    set p: nat | p < 64 * |words| && Has(words, p)
  }

  // A bitset with room for `bits` bits, all of them zero.
  method NewBitset(bits: nat) returns (b: array<Word>)
    ensures fresh(b) && bits <= 64 * b.Length < bits + 64
    ensures Bits(b[..]) == {}
  {
    var extra := if bits % 64 != 0 then 1 else 0;
    b := new Word[bits / 64 + extra](_ => ZERO);
  }

  method Clone(b: array<Word>) returns (c: array<Word>)
    ensures fresh(c) && c[..] == b[..]
  {
    c := new Word[b.Length](i requires 0 <= i < b.Length reads b => b[i]);
    assert c[..] == b[..];
  }

  method Set(b: array<Word>, pos: nat)
    requires pos < 64 * b.Length
    modifies b
    ensures Bits(b[..]) == old(Bits(b[..])) + {pos}
  {
    ghost var was := b[..];
    var major, minor := pos / 64, pos % 64;
    b[major] := Or(b[major], Shifted(minor));
    forall p: nat | p < 64 * |was| ensures Has(b[..], p) == (p == pos || Has(was, p)) {
    }
  }

  method Clear(b: array<Word>, pos: nat)
    requires pos < 64 * b.Length
    modifies b
    ensures Bits(b[..]) == old(Bits(b[..])) - {pos}
  {
    ghost var was := b[..];
    var major, minor := pos / 64, pos % 64;
    b[major] := AndNot(b[major], Shifted(minor));
    forall p: nat | p < 64 * |was| ensures Has(b[..], p) == (p != pos && Has(was, p)) {
    }
  }

  method Equals(a: seq<Word>, b: seq<Word>) returns (same: bool)
    ensures same == (a == b)
  {
    if |a| != |b| {
      return false;
    }
    var i := 0;
    while i < |a|
      invariant 0 <= i <= |a|
      invariant a[..i] == b[..i]
    {
      if a[i] != b[i] {
        return false;
      }
      i := i + 1;
    }
    return true;
  }

  /** Comparing words decides whether two bitsets of the same room stand for the same set. */
  lemma SameSet(a: seq<Word>, b: seq<Word>)
    requires |a| == |b|
    ensures a == b <==> Bits(a) == Bits(b)
  {
    if Bits(a) == Bits(b) {
      forall i | 0 <= i < |a| ensures a[i] == b[i] {
        forall k | 0 <= k < 64 ensures a[i][k] == b[i][k] {
          var p := 64 * i + k;
          assert p / 64 == i && p % 64 == k;
          assert p in Bits(a) <==> Has(a, p);
          assert p in Bits(b) <==> Has(b, p);
        }
      }
    }
  }

  // ---------------------------------------------------------------- hash

  function OnesCount(bits: seq<bool>): nat {
    if bits == [] then 0 else (if bits[0] then 1 else 0) + OnesCount(bits[1..])
  }

  function PopCount(words: seq<Word>): nat {
    if words == [] then 0 else PopCount(words[..|words| - 1]) + OnesCount(words[|words| - 1])
  }

  function XorAll(words: seq<Word>): Word {
    if words == [] then ZERO else Xor(XorAll(words[..|words| - 1]), words[|words| - 1])
  }

  // The low `k` bits of a number.
  function ToBits(n: nat, k: nat): (bits: seq<bool>)
    ensures |bits| == k
  {
    if k == 0 then [] else [n % 2 == 1] + ToBits(n / 2, k - 1)
  }

  // The bucket of a bitset in the cache: its popcount mixed with all its words.
  function HashOf(words: seq<Word>): Word {
    Xor(ToBits(PopCount(words), 64), XorAll(words))
  }

  lemma {:induction false} OnesCountNext(bits: seq<bool>, k: nat)
    requires k < |bits|
    ensures OnesCount(bits[..k + 1]) == OnesCount(bits[..k]) + if bits[k] then 1 else 0
  {
    if k > 0 {
      assert bits[..k + 1][1..] == bits[1..][..k] && bits[..k][1..] == bits[1..][..k - 1];
      OnesCountNext(bits[1..], k - 1);
    }
  }

  // The members below a position.
  ghost function Below(words: seq<Word>, n: nat): set<nat>
    requires n <= 64 * |words|
  {
    set p: nat | p < n && Has(words, p)
  }

  lemma BelowNext(words: seq<Word>, w: nat, k: nat)
    requires w < |words| && k < 64
    ensures |Below(words, 64 * w + k + 1)| == |Below(words, 64 * w + k)| + if words[w][k] then 1 else 0
  {
    var p := 64 * w + k;
    assert p / 64 == w && p % 64 == k;
    assert Below(words, p + 1) == Below(words, p) + if words[w][k] then {p} else {};
  }

  lemma {:induction false} BelowCounted(words: seq<Word>, w: nat, k: nat)
    requires w < |words| && k <= 64
    ensures |Below(words, 64 * w + k)| == PopCount(words[..w]) + OnesCount(words[w][..k])
    decreases w, k
  {
    hide Below;
    if k > 0 {
      BelowCounted(words, w, k - 1);
      OnesCountNext(words[w], k - 1);
      BelowNext(words, w, k - 1);
    } else if w > 0 {
      BelowCounted(words, w - 1, 64);
      assert words[..w][..w - 1] == words[..w - 1] && words[w - 1][..64] == words[w - 1];
    } else {
      NoneBelow(words);
    }
  }

  lemma NoneBelow(words: seq<Word>)
    ensures Below(words, 0) == {}
  {
  }

  /** The population count is the size of the set. */
  lemma PopCountIsSize(words: seq<Word>)
    ensures PopCount(words) == |Bits(words)|
  {
    if words != [] {
      var w := |words| - 1;
      BelowCounted(words, w, 64);
      assert words[w][..64] == words[w] && Below(words, 64 * |words|) == Bits(words);
    } else {
      assert Bits(words) == {};
    }
  }

  // Whether an odd number of the words have bit `j`.
  ghost predicate OddOnes(words: seq<Word>, j: nat)
    requires j < 64
  {
    words != [] && (words[0][j] != OddOnes(words[1..], j))
  }

  lemma {:induction false} OddOnesNext(words: seq<Word>, w: Word, j: nat)
    requires j < 64
    ensures OddOnes(words + [w], j) == (OddOnes(words, j) != w[j])
  {
    if words == [] {
      assert (words + [w])[1..] == [];
    } else {
      OddOnesNext(words[1..], w, j);
      assert (words + [w])[1..] == words[1..] + [w];
    }
  }

  lemma {:induction false} XorAllMeaning(words: seq<Word>, j: nat)
    requires j < 64
    ensures XorAll(words)[j] == OddOnes(words, j)
  {
    if words != [] {
      var rest := words[..|words| - 1];
      XorAllMeaning(rest, j);
      OddOnesNext(rest, words[|words| - 1], j);
      assert words == rest + [words[|words| - 1]];
    }
  }

  // The number whose bits these are.
  ghost function Value(bits: seq<bool>): nat {
    if bits == [] then 0 else (if bits[0] then 1 else 0) + 2 * Value(bits[1..])
  }

  ghost function TwoTo(k: nat): nat {
    if k == 0 then 1 else 2 * TwoTo(k - 1)
  }

  lemma {:induction false} ToBitsValue(n: nat, k: nat)
    requires n < TwoTo(k)
    ensures Value(ToBits(n, k)) == n
  {
    if k > 0 {
      ToBitsValue(n / 2, k - 1);
    }
  }

  /** Bit `j` of the bucket number is bit `j` of the size of the set, turned over when an odd number of words have it. */
  lemma HashMeaning(words: seq<Word>, j: nat)
    requires j < 64
    ensures HashOf(words)[j] == (ToBits(|Bits(words)|, 64)[j] != OddOnes(words, j))
    ensures |Bits(words)| < TwoTo(64) ==> Value(ToBits(|Bits(words)|, 64)) == |Bits(words)|
  {
    PopCountIsSize(words);
    XorAllMeaning(words, j);
    if |Bits(words)| < TwoTo(64) {
      ToBitsValue(|Bits(words)|, 64);
    }
  }

  method Hash(words: seq<Word>) returns (hash: Word)
    ensures hash == HashOf(words)
  {
    var count, mix: Word := 0, ZERO;
    var i := 0;
    while i < |words|
      invariant 0 <= i <= |words|
      invariant count == PopCount(words[..i]) && mix == XorAll(words[..i])
    {
      assert words[..i + 1][..i] == words[..i];
      count := count + OnesCount(words[i]);
      mix := Xor(mix, words[i]);
      i := i + 1;
    }
    assert words[..i] == words;
    hash := Xor(ToBits(count, 64), mix);
  }
}
