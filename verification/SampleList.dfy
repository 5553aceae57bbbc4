/**
 A list of samples on the wire: a table of 32-bit lengths, and the samples one after
 the other.  Requests and replies of the decrypt protocol both carry one.
 */
module SampleList {
  import opened Bytes

  type Samples = seq<seq<byte>>

  function Sum(lens: seq<nat>): nat {
    if lens == [] then 0 else lens[0] + Sum(lens[1..])
  }

  function Sizes(samples: Samples): (lens: seq<nat>)
    ensures |lens| == |samples|
    ensures forall i :: 0 <= i < |samples| ==> lens[i] == |samples[i]|
  {
    seq(|samples|, i requires 0 <= i < |samples| => |samples[i]|)
  }

  predicate AllU32(lens: seq<nat>) {
    forall i :: 0 <= i < |lens| ==> lens[i] < U32_LIMIT
  }

  function Table(lens: seq<nat>): (t: seq<byte>)
    requires AllU32(lens)
    ensures |t| == 4 * |lens|
  {
    if lens == [] then [] else U32(lens[0]) + Table(lens[1..])
  }

  /** The n lengths stored in s from off on. */
  function ReadTable(s: seq<byte>, off: nat, n: nat): (lens: seq<nat>)
    requires off + 4 * n <= |s|
    ensures |lens| == n && AllU32(lens)
    ensures forall i :: 0 <= i < n ==> lens[i] == ReadU32(s, off + 4 * i)
  {
    seq(n, i requires 0 <= i < n => ReadU32(s, off + 4 * i))
  }

  function Concat(samples: Samples): (s: seq<byte>)
    ensures |s| == Sum(Sizes(samples))
  {
    if samples == [] then []
    else
      assert Sizes(samples)[1..] == Sizes(samples[1..]);
      samples[0] + Concat(samples[1..])
  }

  /** s cut into pieces of the given lengths. */
  function Cut(s: seq<byte>, lens: seq<nat>): (samples: Samples)
    requires Sum(lens) == |s|
    ensures Sizes(samples) == lens
  {
    if lens == [] then []
    else
      var rest := Cut(s[lens[0]..], lens[1..]);
      assert Sizes([s[..lens[0]]] + rest) == [lens[0]] + Sizes(rest);
      [s[..lens[0]]] + rest
  }

  lemma {:induction false} SumAppend(lens: seq<nat>, n: nat)
    ensures Sum(lens + [n]) == Sum(lens) + n
  {
    if lens == [] {
      assert [n][1..] == [];
    } else {
      assert (lens + [n])[1..] == lens[1..] + [n];
      SumAppend(lens[1..], n);
    }
  }

  lemma {:induction false} SumSplit(lens: seq<nat>, i: nat)
    requires i <= |lens|
    ensures Sum(lens) == Sum(lens[..i]) + Sum(lens[i..])
  {
    if i > 0 {
      assert lens[1..][..i - 1] == lens[..i][1..];
      assert lens[1..][i - 1..] == lens[i..];
      SumSplit(lens[1..], i - 1);
    } else {
      assert lens[i..] == lens;
    }
  }

  lemma {:induction false} TableAppend(lens: seq<nat>, n: nat)
    requires AllU32(lens) && n < U32_LIMIT
    ensures AllU32(lens + [n])
    ensures Table(lens + [n]) == Table(lens) + U32(n)
  {
    if lens == [] {
      assert [n][1..] == [];
    } else {
      assert (lens + [n])[1..] == lens[1..] + [n];
      TableAppend(lens[1..], n);
    }
  }

  lemma {:induction false} ConcatAppend(samples: Samples, s: seq<byte>)
    ensures Concat(samples + [s]) == Concat(samples) + s
  {
    if samples == [] {
      assert [s][1..] == [];
    } else {
      assert (samples + [s])[1..] == samples[1..] + [s];
      ConcatAppend(samples[1..], s);
    }
  }

  lemma SliceOfSlice(t: seq<byte>, start: nat, end: nat, a: nat, b: nat)
    requires a <= b && start + b <= end <= |t|
    ensures t[start..end][a..b] == t[start + a..start + b]
  {
    var inner, outer := t[start..end][a..b], t[start + a..start + b];
    assert |inner| == |outer|;
    assert forall i :: 0 <= i < |outer| ==> inner[i] == t[start..end][a + i] == t[start + (a + i)] == outer[i];
  }

  lemma {:induction false} TableAt(lens: seq<nat>, i: nat)
    requires AllU32(lens) && i < |lens|
    ensures Table(lens)[4 * i..4 * i + 4] == U32(lens[i])
  {
    var t := Table(lens);
    if i == 0 {
      assert t == U32(lens[0]) + Table(lens[1..]);
    } else {
      TableAt(lens[1..], i - 1);
      assert t[4..] == Table(lens[1..]);
      SliceOfSlice(t, 4, |t|, 4 * (i - 1), 4 * i);
    }
  }

  /** Reading the table of given lengths gives them back, wherever it stands. */
  lemma {:induction false} ReadTableBack(s: seq<byte>, off: nat, lens: seq<nat>)
    requires AllU32(lens) && off + 4 * |lens| <= |s|
    requires s[off..off + 4 * |lens|] == Table(lens)
    ensures ReadTable(s, off, |lens|) == lens
  {
    forall i | 0 <= i < |lens| ensures ReadU32(s, off + 4 * i) == lens[i] {
      TableAt(lens, i);
      SliceOfSlice(s, off, off + 4 * |lens|, 4 * i, 4 * i + 4);
      ReadU32Back(s, off + 4 * i, lens[i]);
    }
  }

  lemma {:induction false} ReadTableStep(s: seq<byte>, off: nat, n: nat)
    requires n > 0 && off + 4 * n <= |s|
    ensures ReadTable(s, off, n)[0] == ReadU32(s, off)
    ensures ReadTable(s, off, n)[1..] == ReadTable(s, off + 4, n - 1)
  {
  }

  lemma SliceSplit(s: seq<byte>, a: nat, b: nat, c: nat)
    requires a <= b <= c <= |s|
    ensures s[a..b] + s[b..c] == s[a..c]
  {
  }

  /** Writing the lengths that were read gives the bytes they were read from. */
  lemma {:induction false} WriteTableBack(s: seq<byte>, off: nat, n: nat)
    requires off + 4 * n <= |s|
    ensures Table(ReadTable(s, off, n)) == s[off..off + 4 * n]
    decreases n
  {
    if n > 0 {
      WriteU32Back(s, off);
      WriteTableBack(s, off + 4, n - 1);
      ReadTableStep(s, off, n);
      SliceSplit(s, off, off + 4, off + 4 * n);
    }
  }

  lemma {:induction false} ConcatCut(s: seq<byte>, lens: seq<nat>)
    requires Sum(lens) == |s|
    ensures Concat(Cut(s, lens)) == s
  {
    if lens != [] {
      ConcatCut(s[lens[0]..], lens[1..]);
      assert Cut(s, lens)[1..] == Cut(s[lens[0]..], lens[1..]);
    }
  }

  lemma {:induction false} CutConcat(samples: Samples)
    ensures Cut(Concat(samples), Sizes(samples)) == samples
  {
    if samples != [] {
      var s, lens := Concat(samples), Sizes(samples);
      assert lens[1..] == Sizes(samples[1..]);
      assert s[..lens[0]] == samples[0] && s[lens[0]..] == Concat(samples[1..]);
      CutConcat(samples[1..]);
    }
  }

  /** Pieces of the right lengths that make up s are the pieces s is cut into. */
  lemma CutIs(s: seq<byte>, lens: seq<nat>, samples: Samples)
    requires Sizes(samples) == lens && Concat(samples) == s
    ensures Sum(lens) == |s| && Cut(s, lens) == samples
  {
    CutConcat(samples);
  }
}
