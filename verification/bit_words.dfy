/** Bit vectors packed into 64-bit words, as the split keeps them. */
module BitWords {
  import opened Common
  import opened MsmMath

  const CHUNK_BITS := 64

  /** A uint64_t by the positions of its set bits: `|= 1 << k` adds k, `|` is union, popcount is size. */
  type Word = set<int>

  const ZERO: Word := {}

  function Words(n: nat): nat { (n + CHUNK_BITS - 1) / CHUNK_BITS }

  /** Words tile the bits: chunk w starts inside, and the chunks before w + 1 end where it does. */
  lemma Chunks(n: nat, w: nat)
    ensures w < Words(n) <==> CHUNK_BITS * w < n
    ensures Min(0, n) == 0 && Min(CHUNK_BITS * Words(n), n) == n
    ensures CHUNK_BITS * w < n ==>
              && 0 < Min(CHUNK_BITS, n - CHUNK_BITS * w) <= CHUNK_BITS
              && Min(CHUNK_BITS * w, n) == CHUNK_BITS * w
              && Min(CHUNK_BITS * (w + 1), n) == CHUNK_BITS * w + Min(CHUNK_BITS, n - CHUNK_BITS * w) <= n
  {
  }

  predicate Bit(ws: seq<Word>, i: nat)
    requires i < CHUNK_BITS * |ws|
  {
    i % CHUNK_BITS in ws[i / CHUNK_BITS]
  }

  /** A word holds `len` bits of `s` from `base` on, and zeros behind them. */
  ghost predicate Holds(word: Word, s: seq<bool>, base: nat, len: nat) {
    base + len <= |s| && forall k :: k in word <==> 0 <= k < len && s[base + k]
  }

  /** The first `w` words hold the bits of `s`. */
  ghost predicate Filled(ws: seq<Word>, w: nat, s: seq<bool>) {
    && w <= |ws| && w <= Words(|s|)
    && forall v :: 0 <= v < w ==> Holds(ws[v], s, CHUNK_BITS * v, Min(CHUNK_BITS, |s| - CHUNK_BITS * v))
  }

  ghost predicate Packed(ws: seq<Word>, s: seq<bool>) {
    |ws| == Words(|s|) && Filled(ws, |ws|, s)
  }

  /** A vector with the cursor, the bit offset and the word in hand that fill it. */
  datatype Writer = Writer(vec: seq<Word>, cursor: nat, off: nat, cur: Word)

  /** The vector is to hold `s` and `n` bits of it are in: whole words stored, the rest in hand. */
  ghost predicate Writing(w: Writer, s: seq<bool>, n: nat) {
    && |w.vec| == Words(|s|) && n <= |s|
    && w.off < CHUNK_BITS && n == CHUNK_BITS * w.cursor + w.off
    && Filled(w.vec, w.cursor, s) && Holds(w.cur, s, CHUNK_BITS * w.cursor, w.off)
  }

  lemma NothingYet(ws: seq<Word>, s: seq<bool>, base: nat)
    requires base <= |s|
    ensures Filled(ws, 0, s) && Holds(ZERO, s, base, 0)
  {
  }

  lemma StoreWord(ws: seq<Word>, w: nat, s: seq<bool>, word: Word)
    requires Filled(ws, w, s) && w < |ws| && CHUNK_BITS * w < |s|
    ensures Filled(ws[w := word], w, s)
    ensures Holds(word, s, CHUNK_BITS * w, Min(CHUNK_BITS, |s| - CHUNK_BITS * w)) ==> Filled(ws[w := word], w + 1, s)
  {
  }

  lemma SetBit(word: Word, s: seq<bool>, base: nat, len: nat, b: bool)
    requires Holds(word, s, base, len) && base + len < |s| && s[base + len] == b
    ensures Holds(if b then word + {len} else word, s, base, len + 1)
  {
  }

  /** Append one bit; a full word goes to the vector. */
  method PushBit(w: Writer, b: bool, ghost s: seq<bool>, ghost n: nat) returns (w': Writer)
    requires Writing(w, s, n) && n < |s| && s[n] == b
    ensures Writing(w', s, n + 1)
  {
    SetBit(w.cur, s, CHUNK_BITS * w.cursor, w.off, b);
    var cur := if b then w.cur + {w.off} else w.cur;
    if w.off + 1 == CHUNK_BITS {
      w' := Writer(w.vec[w.cursor := cur], w.cursor + 1, 0, ZERO);
    } else {
      w' := w.(off := w.off + 1, cur := cur);
    }
  }

  /** Store the last, partial word if there is one. */
  method FlushBits(w: Writer, ghost s: seq<bool>) returns (vec: seq<Word>)
    requires Writing(w, s, |s|)
    ensures Packed(vec, s)
  {
    vec := if w.off != 0 then w.vec[w.cursor := w.cur] else w.vec;
  }

  ghost predicate Marked(sigs: seq<seq<bool>>, c: nat, i: nat) {
    exists d :: 0 <= d < c && d < |sigs| && i < |sigs[d]| && sigs[d][i]
  }

  /** A position is in the union when some circuit marks it. */
  ghost function Union(sigs: seq<seq<bool>>, n: nat): (r: seq<bool>)
    ensures |r| == n
  {
    seq(n, i requires 0 <= i < n => Marked(sigs, |sigs|, i))
  }

  lemma BitOf(words: seq<Word>, s: seq<bool>, at: nat)
    requires Packed(words, s) && at < |s|
    ensures at < CHUNK_BITS * |words| && Bit(words, at) == s[at]
  {
    var v, k := at / CHUNK_BITS, at % CHUNK_BITS;
    assert Holds(words[v], s, CHUNK_BITS * v, Min(CHUNK_BITS, |s| - CHUNK_BITS * v));
    assert k in words[v] <==> 0 <= k < Min(CHUNK_BITS, |s| - CHUNK_BITS * v) && s[CHUNK_BITS * v + k];
  }

  /** The popcount of a word is the number of bits it holds. */
  lemma {:induction false} WordCount(word: Word, s: seq<bool>, base: nat, len: nat)
    requires Holds(word, s, base, len)
    ensures CountTrue(s[..base + len]) == CountTrue(s[..base]) + |word|
  {
    if len == 0 {
      assert forall k :: k !in word;
      assert word == {};
    } else {
      WordCount(word - {len - 1}, s, base, len - 1);
      assert s[..base + len][..base + len - 1] == s[..base + len - 1];
      assert s[base + len - 1] ==> |word - {len - 1}| == |word| - 1;
      assert !s[base + len - 1] ==> word - {len - 1} == word;
    }
  }

  /** OR one word of every circuit's vector. */
  method OrWords(vecs: seq<seq<Word>>, n: nat, i: nat, ghost sigs: seq<seq<bool>>) returns (word: Word)
    requires |vecs| == |sigs| > 0 && i < Words(n)
    requires forall c :: 0 <= c < |vecs| ==> |sigs[c]| == n && Packed(vecs[c], sigs[c])
    ensures Holds(word, Union(sigs, n), CHUNK_BITS * i, Min(CHUNK_BITS, n - CHUNK_BITS * i))
  {
    word := vecs[0][i];
    ghost var len := Min(CHUNK_BITS, n - CHUNK_BITS * i);
    for c := 1 to |vecs|
      invariant forall k :: k in word <==> 0 <= k < len && Marked(sigs, c, CHUNK_BITS * i + k)
    {
      word := word + vecs[c][i];
    }
  }

  /** OR the circuits' vectors word by word and count the bits that survive. */
  method MergeMasks(vecs: seq<seq<Word>>, n: nat, ghost sigs: seq<seq<bool>>)
    returns (mask: seq<Word>, count: nat)
    requires |vecs| == |sigs| > 0
    requires forall c :: 0 <= c < |vecs| ==> |sigs[c]| == n && Packed(vecs[c], sigs[c])
    ensures Packed(mask, Union(sigs, n)) && count == CountTrue(Union(sigs, n))
  {
    hide Filled, Holds, Words, Packed;
    ghost var u := Union(sigs, n);
    mask := seq(Words(n), _ => ZERO);
    count := 0;
    NothingYet(mask, u, 0);
    Chunks(n, Words(n));
    for i := 0 to |mask|
      invariant |mask| == Words(n) && Filled(mask, i, u)
      invariant count == CountTrue(u[..Min(CHUNK_BITS * i, n)])
    {
      Chunks(n, i);
      var word := OrWords(vecs, n, i, sigs);
      StoreWord(mask, i, u, word);
      WordCount(word, u, CHUNK_BITS * i, Min(CHUNK_BITS, n - CHUNK_BITS * i));
      mask := mask[i := word];
      count := count + |word|;
    }
    assert u[..n] == u;
    PackedIfFilled(mask, u);
  }

  lemma PackedIfFilled(ws: seq<Word>, s: seq<bool>)
    requires |ws| == Words(|s|) && Filled(ws, |ws|, s)
    ensures Packed(ws, s)
  {
  }
}
