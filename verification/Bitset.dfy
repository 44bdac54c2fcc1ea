/** Sets of small numbers packed into 64-bit words. A word is modelled as its 64 bits, bit 0 first. */
module Bitset {

  const ZERO: seq<bool> := seq(64, i => false)

  type Word = w: seq<bool> | |w| == 64 witness ZERO

  predicate Has(b: seq<Word>, pos: nat)
    requires pos / 64 < |b|
  {
    b[pos / 64][pos % 64]
  }

  /** The set a bitset stands for. */
  function Bits(b: seq<Word>): set<nat> {
    set pos: nat | pos < 64 * |b| && Has(b, pos)
  }

  /** The words of an empty set over `bits` numbers. */
  function Empty(bits: nat): (b: seq<Word>)
    ensures Bits(b) == {} && bits <= 64 * |b|
  {
    seq(bits / 64 + (if bits % 64 != 0 then 1 else 0), i => ZERO)
  }

  function With(b: seq<Word>, pos: nat): seq<Word>
    requires pos / 64 < |b|
  {
    b[pos / 64 := b[pos / 64][pos % 64 := true]]
  }

  function Without(b: seq<Word>, pos: nat): seq<Word>
    requires pos / 64 < |b|
  {
    b[pos / 64 := b[pos / 64][pos % 64 := false]]
  }

  lemma HasChange(b: seq<Word>, pos: nat, q: nat)
    requires pos / 64 < |b| && q / 64 < |b|
    ensures Has(With(b, pos), q) <==> q == pos || Has(b, q)
    ensures Has(Without(b, pos), q) <==> q != pos && Has(b, q)
  {
  }

  /** Setting a bit adds its number, clearing it takes it out. */
  lemma BitsChange(b: seq<Word>, pos: nat)
    requires pos < 64 * |b|
    ensures Bits(With(b, pos)) == Bits(b) + {pos}
    ensures Bits(Without(b, pos)) == Bits(b) - {pos}
  {
    forall q: nat | q < 64 * |b|
      ensures q in Bits(With(b, pos)) <==> q in Bits(b) + {pos}
      ensures q in Bits(Without(b, pos)) <==> q in Bits(b) - {pos}
    {
      HasChange(b, pos, q);
    }
  }

  /** Two bitsets of one size stand for the same set only if they are word for word equal. */
  lemma BitsDetermine(a: seq<Word>, b: seq<Word>)
    requires |a| == |b| && Bits(a) == Bits(b)
    ensures a == b
  {
    forall i | 0 <= i < |a|
      ensures a[i] == b[i]
    {
      forall m | 0 <= m < 64
        ensures a[i][m] == b[i][m]
      {
        var pos := 64 * i + m;
        assert pos / 64 == i && pos % 64 == m;
        assert pos in Bits(a) <==> pos in Bits(b);
      }
    }
  }

  // ----- Hashing -----

  /** The low 64 bits of a number. */
  function ToWord(n: nat): Word {
    seq(64, i requires 0 <= i < 64 => BitOf(n, i))
  }

  predicate BitOf(n: nat, k: nat)
    decreases k
  {
    if k == 0 then n % 2 == 1 else BitOf(n / 2, k - 1)
  }

  function Xor(a: Word, b: Word): Word {
    seq(64, i requires 0 <= i < 64 => a[i] != b[i])
  }

  function OnesCount(w: seq<bool>): nat {
    if w == [] then 0 else OnesCount(w[..|w| - 1]) + (if w[|w| - 1] then 1 else 0)
  }

  function PopCount(b: seq<Word>): nat {
    if b == [] then 0 else PopCount(b[..|b| - 1]) + OnesCount(b[|b| - 1])
  }

  function XorAll(b: seq<Word>, start: Word): Word {
    if b == [] then start else Xor(XorAll(b[..|b| - 1], start), b[|b| - 1])
  }

  /** Population count, in 64 bits, xor every word. */
  function Hash(b: seq<Word>): Word {
    XorAll(b, ToWord(PopCount(b)))
  }

  /** The members below a number. */
  function Below(b: seq<Word>, top: nat): set<nat> {
    set pos: nat | pos in Bits(b) && pos < top
  }

  lemma BelowOne(b: seq<Word>, top: nat)
    requires 0 < top <= 64 * |b|
    ensures |Below(b, top)| == |Below(b, top - 1)| + if Has(b, top - 1) then 1 else 0
  {
    if Has(b, top - 1) {
      assert top - 1 in Bits(b);
      assert Below(b, top) == Below(b, top - 1) + {top - 1};
    } else {
      assert top - 1 !in Bits(b);
      assert Below(b, top) == Below(b, top - 1);
    }
  }

  lemma OneMore(w: Word, m: nat)
    requires 0 < m <= 64
    ensures OnesCount(w[..m]) == OnesCount(w[..m - 1]) + if w[m - 1] then 1 else 0
  {
    assert w[..m][..m - 1] == w[..m - 1];
  }

  lemma {:induction false} CountTo(b: seq<Word>, i: nat, m: nat)
    requires i < |b| && m <= 64
    ensures |Below(b, 64 * i + m)| == PopCount(b[..i]) + OnesCount(b[i][..m])
    decreases i, m
  {
    hide Below, OnesCount, Has;
    var top := 64 * i + m;
    NoneBelow(b, b[i]);
    if m > 0 {
      CountTo(b, i, m - 1);
      OneMore(b[i], m);
      BelowOne(b, top);
      HasAt(b, i, m - 1);
    } else if i > 0 {
      CountTo(b, i - 1, 64);
      assert b[i - 1][..64] == b[i - 1] && b[..i][..i - 1] == b[..i - 1];
      assert 64 * (i - 1) + 64 == top;
    }
  }

  lemma HasAt(b: seq<Word>, i: nat, m: nat)
    requires i < |b| && m < 64
    ensures (64 * i + m) / 64 == i && Has(b, 64 * i + m) == b[i][m]
  {
    assert (64 * i + m) / 64 == i && (64 * i + m) % 64 == m;
  }

  lemma NoneBelow(b: seq<Word>, w: Word)
    ensures |Below(b, 0)| == 0 && OnesCount(w[..0]) == 0 && PopCount(b[..0]) == 0
  {
    assert Below(b, 0) == {};
  }

  /** The population count is the number of members. */
  lemma PopIsSize(b: seq<Word>)
    ensures PopCount(b) == |Bits(b)|
  {
    if b == [] {
      assert Bits(b) == {};
    } else {
      var n := |b| - 1;
      CountTo(b, n, 64);
      assert b[n][..64] == b[n];
      assert Below(b, 64 * |b|) == Bits(b);
    }
  }

  /** The words that have a bit. */
  function Column(b: seq<Word>, k: nat): set<nat>
    requires k < 64
  {
    set i: nat | i < |b| && b[i][k]
  }

  lemma ColumnOne(b: seq<Word>, k: nat)
    requires k < 64 && b != []
    ensures var n := |b| - 1; |Column(b, k)| == |Column(b[..n], k)| + if b[n][k] then 1 else 0
  {
    var n := |b| - 1;
    if b[n][k] {
      assert Column(b, k) == Column(b[..n], k) + {n};
    } else {
      assert Column(b, k) == Column(b[..n], k);
    }
  }

  lemma {:induction false} XorIsParity(b: seq<Word>, start: Word, k: nat)
    requires k < 64
    ensures XorAll(b, start)[k] == (start[k] != (|Column(b, k)| % 2 == 1))
  {
    if b == [] {
      assert Column(b, k) == {};
    } else {
      var n := |b| - 1;
      XorIsParity(b[..n], start, k);
      ColumnOne(b, k);
    }
  }

  /** A bit of the hash: that bit of the number of members, flipped for each word that has the bit. */
  lemma HashMeans(b: seq<Word>, k: nat)
    requires k < 64
    ensures Hash(b)[k] == (BitOf(|Bits(b)|, k) != (|Column(b, k)| % 2 == 1))
  {
    PopIsSize(b);
    XorIsParity(b, ToWord(PopCount(b)), k);
  }

  // ----- In place -----

  method NewBitset(bits: nat) returns (b: array<Word>)
    ensures fresh(b) && b[..] == Empty(bits)
  {
    var extra := if bits % 64 != 0 then 1 else 0;
    b := new Word[bits / 64 + extra](i => ZERO);
  }

  method SetBit(b: array<Word>, pos: nat)
    requires pos / 64 < b.Length
    modifies b
    ensures b[..] == With(old(b[..]), pos)
  {
    var major, minor := pos / 64, pos % 64;
    b[major] := b[major][minor := true];
  }

  method ClearBit(b: array<Word>, pos: nat)
    requires pos / 64 < b.Length
    modifies b
    ensures b[..] == Without(old(b[..]), pos)
  {
    var major, minor := pos / 64, pos % 64;
    b[major] := b[major][minor := false];
  }

  method HashOf(b: seq<Word>) returns (hash: Word)
    ensures hash == Hash(b)
    ensures forall k {:trigger hash[k]} :: 0 <= k < 64 ==>
      hash[k] == (BitOf(|Bits(b)|, k) != (|Column(b, k)| % 2 == 1))
  {
    var total := 0;
    for i := 0 to |b|
      invariant total == PopCount(b[..i])
    {
      assert b[..i + 1][..i] == b[..i];
      total := total + OnesCount(b[i]);
    }
    assert b[..|b|] == b;
    hash := ToWord(total);
    for i := 0 to |b|
      invariant hash == XorAll(b[..i], ToWord(PopCount(b)))
    {
      assert b[..i + 1][..i] == b[..i];
      hash := Xor(hash, b[i]);
    }
    assert b[..|b|] == b;
    forall k | 0 <= k < 64
      ensures hash[k] == (BitOf(|Bits(b)|, k) != (|Column(b, k)| % 2 == 1))
    {
      HashMeans(b, k);
    }
  }

  /** Equal lengths and equal words: for bitsets of one size, equal sets. */
  method EqualWords(a: seq<Word>, b: seq<Word>) returns (equal: bool)
    ensures |a| == |b| ==> (equal <==> Bits(a) == Bits(b))
    ensures equal <==> a == b
  {
    if |a| != |b| {
      return false;
    }
    if Bits(a) == Bits(b) { BitsDetermine(a, b); }
    for i := 0 to |a|
      invariant a[..i] == b[..i]
    {
      if a[i] != b[i] {
        return false;
      }
    }
    return true;
  }
}
