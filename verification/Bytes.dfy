/**
  Little-endian words in a byte buffer.  A parse step either yields a value and the
  offset after it, or is `Stuck`: the C code would read outside the buffer there.
*/
module Bytes {

  type byte = b: int | 0 <= b < 256

  const TWO_16 := 0x1_0000
  const TWO_31 := 0x8000_0000
  const TWO_32 := 0x1_0000_0000
  const TWO_63 := 0x8000_0000_0000_0000
  const TWO_64 := 0x1_0000_0000_0000_0000

  type u16 = x: int | 0 <= x < TWO_16
  type u32 = x: int | 0 <= x < TWO_32
  type u64 = x: int | 0 <= x < TWO_64

  datatype Parsed<+T> = Stuck | Done(value: T, next: nat) {
    predicate IsFailure() { Stuck? }
    function PropagateFailure<U>(): Parsed<U>
      requires Stuck?
    {
      Stuck
    }
    function Extract(): (T, nat)
      requires Done?
    {
      (value, next)
    }
  }

  /** A stored word read through a signed C type. */
  function Signed32(x: u32): int { if x < TWO_31 then x else x - TWO_32 }

  function Signed64(x: u64): int { if x < TWO_63 then x else x - TWO_64 }

  /** Two's complement at 32 and at 64 bits. */
  lemma {:induction false} SignedWords(x: u32, y: u64)
    ensures -TWO_31 <= Signed32(x) < TWO_31 && (x - Signed32(x) == 0 || x - Signed32(x) == TWO_32)
    ensures -TWO_63 <= Signed64(y) < TWO_63 && (y - Signed64(y) == 0 || y - Signed64(y) == TWO_64)
  {
  }

  /** The number of values of k bytes. */
  function Range(k: nat): nat {
    if k == 0 then 1 else 256 * Range(k - 1)
  }

  lemma {:induction false} RangeValues()
    ensures Range(2) == TWO_16 && Range(4) == TWO_32 && Range(8) == TWO_64
  {
  }

  /** The k bytes of n, least significant first. */
  function LE(n: nat, k: nat): (s: seq<byte>)
    ensures |s| == k
  {
    if k == 0 then [] else [n % 256] + LE(n / 256, k - 1)
  }

  function FromLE(s: seq<byte>): nat {
    if s == [] then 0 else s[0] + 256 * FromLE(s[1..])
  }

  lemma {:induction false} FromLEBelow(s: seq<byte>)
    ensures FromLE(s) < Range(|s|)
  {
    if s != [] { FromLEBelow(s[1..]); }
  }

  lemma {:induction false} FromLEInvertsLE(n: nat, k: nat)
    requires n < Range(k)
    ensures FromLE(LE(n, k)) == n
  {
    if k > 0 {
      FromLEInvertsLE(n / 256, k - 1);
      assert LE(n, k)[1..] == LE(n / 256, k - 1);
    }
  }

  lemma {:induction false} LEInvertsFromLE(s: seq<byte>)
    ensures LE(FromLE(s), |s|) == s
  {
    if s != [] {
      LEInvertsFromLE(s[1..]);
      var n := FromLE(s);
      assert n % 256 == s[0] && n / 256 == FromLE(s[1..]);
      assert s == [s[0]] + s[1..];
    }
  }

  /** The bytes s stand in data at offset off. */
  predicate At(data: seq<byte>, off: nat, s: seq<byte>) {
    off + |s| <= |data| && data[off..off + |s|] == s
  }

  lemma {:induction false} AtSplit(data: seq<byte>, off: nat, a: seq<byte>, b: seq<byte>)
    ensures At(data, off, a + b) <==> At(data, off, a) && At(data, off + |a|, b)
  {
    if off + |a| + |b| <= |data| {
      var w := data[off..off + |a + b|];
      assert w[..|a|] == data[off..off + |a|];
      assert w[|a|..] == data[off + |a|..off + |a| + |b|];
      assert w == w[..|a|] + w[|a|..];
      if w == a + b {
        assert w[..|a|] == a && w[|a|..] == b;
      }
    }
  }

  /** memcpy of a k-byte word out of the buffer. */
  function WordAt(data: seq<byte>, off: nat, k: nat): (r: Parsed<nat>)
    ensures r.Done? ==> r.next == off + k
  {
    if off + k <= |data| then Done(FromLE(data[off..off + k]), off + k) else Stuck
  }

  function U64At(data: seq<byte>, off: nat): (r: Parsed<u64>)
    ensures r.Done? ==> r.next == off + 8
  {
    if off + 8 <= |data| then
      FromLEBelow(data[off..off + 8]); RangeValues();
      Done(FromLE(data[off..off + 8]), off + 8)
    else Stuck
  }

  function U32At(data: seq<byte>, off: nat): (r: Parsed<u32>)
    ensures r.Done? ==> r.next == off + 4
  {
    if off + 4 <= |data| then
      FromLEBelow(data[off..off + 4]); RangeValues();
      Done(FromLE(data[off..off + 4]), off + 4)
    else Stuck
  }

  function U16At(data: seq<byte>, off: nat): (r: Parsed<u16>)
    ensures r.Done? ==> r.next == off + 2
  {
    if off + 2 <= |data| then
      FromLEBelow(data[off..off + 2]); RangeValues();
      Done(FromLE(data[off..off + 2]), off + 2)
    else Stuck
  }

  lemma {:induction false} WordRoundTrip(data: seq<byte>, off: nat, n: nat, k: nat)
    requires n < Range(k) && At(data, off, LE(n, k))
    ensures WordAt(data, off, k) == Done(n, off + k)
  {
    FromLEInvertsLE(n, k);
  }

  lemma {:induction false} U64RoundTrip(data: seq<byte>, off: nat, w: u64)
    requires At(data, off, LE(w, 8))
    ensures U64At(data, off) == Done(w, off + 8)
  {
    RangeValues();
    WordRoundTrip(data, off, w, 8);
  }

  /** n consecutive 64-bit words. */
  function WordsAt(data: seq<byte>, off: nat, n: nat): (r: Parsed<seq<u64>>)
    ensures r.Done? ==> |r.value| == n && r.next == off + 8 * n
  {
    if n == 0 then Done([], off)
    else
      var (ws, next) :- WordsAt(data, off, n - 1);
      var (w, after) :- U64At(data, next);
      Done(ws + [w], after)
  }

  function LEs(ws: seq<u64>): (s: seq<byte>)
    ensures |s| == 8 * |ws|
  {
    if ws == [] then [] else LEs(ws[..|ws| - 1]) + LE(ws[|ws| - 1], 8)
  }

  lemma {:induction false} WordsRoundTrip(data: seq<byte>, off: nat, ws: seq<u64>)
    requires At(data, off, LEs(ws))
    ensures WordsAt(data, off, |ws|) == Done(ws, off + 8 * |ws|)
  {
    if ws != [] {
      var n := |ws| - 1;
      AtSplit(data, off, LEs(ws[..n]), LE(ws[n], 8));
      WordsRoundTrip(data, off, ws[..n]);
      U64RoundTrip(data, off + 8 * n, ws[n]);
      assert ws == ws[..n] + [ws[n]];
    }
  }

  /** A longer run of words fails where a shorter one does. */
  lemma {:induction false} WordsStuck(data: seq<byte>, off: nat, i: nat, n: nat)
    requires i <= n && WordsAt(data, off, i).Stuck?
    ensures WordsAt(data, off, n).Stuck?
    decreases n
  {
    if i < n { WordsStuck(data, off, i, n - 1); }
  }

  /** size raw bytes. */
  function BlobAt(data: seq<byte>, off: nat, size: nat): (r: Parsed<seq<byte>>)
    ensures r.Done? ==> |r.value| == size && r.next == off + size
  {
    if off + size <= |data| then Done(data[off..off + size], off + size) else Stuck
  }

  function Concat(chunks: seq<seq<byte>>): seq<byte> {
    if chunks == [] then [] else chunks[0] + Concat(chunks[1..])
  }

  /** Where the chunks start, counted from off, and where the last one ends. */
  function Offsets(off: nat, chunks: seq<seq<byte>>): (s: seq<nat>)
    ensures |s| == |chunks| + 1 && s[0] == off && s[|chunks|] == off + |Concat(chunks)|
    ensures forall i {:trigger chunks[i]} :: 0 <= i < |chunks| ==> s[i + 1] == s[i] + |chunks[i]|
    decreases chunks
  {
    if chunks == [] then [off] else [off] + Offsets(off + |chunks[0]|, chunks[1..])
  }

  lemma {:induction false} ChunkAt(data: seq<byte>, off: nat, chunks: seq<seq<byte>>, i: nat)
    requires At(data, off, Concat(chunks)) && i < |chunks|
    ensures At(data, Offsets(off, chunks)[i], chunks[i])
    decreases i
  {
    AtSplit(data, off, chunks[0], Concat(chunks[1..]));
    if i > 0 {
      ChunkAt(data, off + |chunks[0]|, chunks[1..], i - 1);
      assert Offsets(off, chunks)[i] == Offsets(off + |chunks[0]|, chunks[1..])[i - 1];
    }
  }

  /** The chunks before position p stand at the start, and chunk p right after them. */
  lemma {:induction false} ConcatSplit(data: seq<byte>, off: nat, chunks: seq<seq<byte>>, p: nat)
    requires At(data, off, Concat(chunks)) && p < |chunks|
    ensures At(data, off, Concat(chunks[..p])) && At(data, off + |Concat(chunks[..p])|, chunks[p])
  {
    assert chunks == chunks[..p] + chunks[p..];
    ConcatJoin(chunks[..p], chunks[p..]);
    AtSplit(data, off, Concat(chunks[..p]), Concat(chunks[p..]));
    AtSplit(data, off + |Concat(chunks[..p])|, chunks[p], Concat(chunks[p..][1..]));
  }

  /** Each chunk of a concatenation stands at its own offset. */
  lemma {:induction false} ConcatAt(data: seq<byte>, off: nat, chunks: seq<seq<byte>>)
    requires At(data, off, Concat(chunks))
    ensures forall i :: 0 <= i < |chunks| ==> At(data, Offsets(off, chunks)[i], chunks[i])
  {
    forall i | 0 <= i < |chunks|
      ensures At(data, Offsets(off, chunks)[i], chunks[i])
    {
      ChunkAt(data, off, chunks, i);
    }
  }

  lemma {:induction false} Regroup(a: seq<byte>, b: seq<byte>, c: seq<byte>)
    ensures a + (b + c) == (a + b) + c
  {
  }

  lemma {:induction false} ConcatJoin(a: seq<seq<byte>>, b: seq<seq<byte>>)
    ensures Concat(a + b) == Concat(a) + Concat(b)
  {
    if a == [] {
      assert a + b == b;
    } else {
      ConcatJoin(a[1..], b);
      assert (a + b)[1..] == a[1..] + b && (a + b)[0] == a[0];
      Regroup(a[0], Concat(a[1..]), Concat(b));
    }
  }
}
