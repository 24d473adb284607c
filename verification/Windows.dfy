/**
  Splitting a text into overlapping windows (`_window`, src/aegis_common/chunking.py:50-61).
*/
module Windows {
  function Min(a: int, b: int): int {
    if a < b then a else b
  }

  function Max(a: int, b: int): int {
    if a < b then b else a
  }

  /** Python's text[from:to] for bounds that are not negative. */
  function Slice(text: string, from: int, to: int): string {
    var lo := Min(Max(from, 0), |text|);
    var hi := Min(Max(to, lo), |text|);
    text[lo..hi]
  }

  function CeilDiv(m: int, d: int): int
    requires d > 0
  {
    (m + d - 1) / d
  }

  lemma ProductOfDifference(p: int, q: int, d: int)
    ensures (p - q) * d == p * d - q * d
  {
  }

  lemma AtLeastOne(k: int, d: int)
    requires k >= 1 && d > 0
    ensures k * d >= d
  {
    ProductOfDifference(k, 1, d);
  }

  lemma QuotientUnique(d: int, p: int, m: int, q: int, r: int)
    requires 0 <= r < d && 0 <= m < d && p * d + m == q * d + r
    ensures p == q
  {
    if p < q {
      AtLeastOne(q - p, d);
      ProductOfDifference(q, p, d);
    } else if p > q {
      AtLeastOne(p - q, d);
      ProductOfDifference(p, q, d);
    }
  }

  lemma CeilDivUnique(n: int, d: int, k: int)
    requires d > 0 && (k - 1) * d < n <= k * d
    ensures CeilDiv(n, d) == k
  {
    var x := n + d - 1;
    ProductOfDifference(k, 1, d);
    QuotientUnique(d, x / d, x % d, k, x - k * d);
  }

  /** How many pieces a text of n characters is cut into. */
  function PieceCount(n: nat, maxChars: nat, overlap: int): int
    requires n > maxChars ==> overlap < maxChars
  {
    if n == 0 then 0
    else if n <= maxChars then 1
    else CeilDiv(n - Max(overlap, 0), maxChars - overlap)
  }

  /** Window k starts k strides into the text and is maxChars long, or ends with the text. */
  function Piece(text: string, maxChars: nat, overlap: int, k: int): string {
    var start := k * (maxChars - overlap);
    Slice(text, start, start + maxChars)
  }

  method Window(text: string, maxChars: nat, overlap: int) returns (out: seq<string>)
    requires |text| > maxChars ==> overlap < maxChars
    ensures |out| == PieceCount(|text|, maxChars, overlap)
    ensures forall k :: 0 <= k < |out| ==> out[k] == Piece(text, maxChars, overlap, k)
  {
    if |text| <= maxChars {
      return if text != "" then [text] else [];
    }
    out := [];
    var start := 0;
    ghost var stride := maxChars - overlap;
    while start < |text|
      invariant start == |out| * stride
      invariant out != [] ==> start - stride < |text| && start - stride + maxChars < |text|
      invariant forall k :: 0 <= k < |out| ==> out[k] == Piece(text, maxChars, overlap, k)
      decreases |text| - start
    {
      var end := Min(start + maxChars, |text|);
      assert text[start..end] == Piece(text, maxChars, overlap, |out|);
      out := out + [text[start..end]];
      if end == |text| {
        break;
      }
      start := end - overlap;
      ProductOfDifference(|out|, 1, stride);
    }
    ProductOfDifference(|out|, 1, stride);
    CeilDivUnique(|text| - Max(overlap, 0), stride, |out|);
  }

  // ----- What the windows are worth -----

  ghost predicate Terminates(text: string, maxChars: nat, overlap: int) {
    |text| > maxChars ==> overlap < maxChars
  }

  lemma {:induction false} CountBounds(n: nat, maxChars: nat, overlap: int)
    requires n > maxChars && overlap < maxChars
    ensures var count, stride := PieceCount(n, maxChars, overlap), maxChars - overlap;
            && count >= 1
            && (count - 1) * stride < n - Max(overlap, 0) <= count * stride
  {
    var count, stride := PieceCount(n, maxChars, overlap), maxChars - overlap;
    var m := n - Max(overlap, 0);
    ProductOfDifference(count, 1, stride);
    if count < 1 {
      AtLeastOne(1 - count, stride);
      ProductOfDifference(1, count, stride);
    }
  }

  /** The list of windows that Window returns. */
  function WindowList(text: string, maxChars: nat, overlap: int): (out: seq<string>)
    requires Terminates(text, maxChars, overlap)
    ensures |out| == PieceCount(|text|, maxChars, overlap)
    ensures forall k :: 0 <= k < |out| ==> out[k] == Piece(text, maxChars, overlap, k)
  {
    if |text| > maxChars then
      CountBounds(|text|, maxChars, overlap);
      seq(PieceCount(|text|, maxChars, overlap), k => Piece(text, maxChars, overlap, k))
    else if text == "" then []
    else [text]
  }

  /** Where window k of a long text lies: every window but the last is full, the last reaches the end. */
  lemma PiecePlace(text: string, maxChars: nat, overlap: int, k: nat)
    requires |text| > maxChars && 0 <= overlap < maxChars
    requires k < PieceCount(|text|, maxChars, overlap)
    ensures var start := k * (maxChars - overlap);
            && 0 <= start && start + overlap < |text|
            && Piece(text, maxChars, overlap, k) == text[start..Min(start + maxChars, |text|)]
            && (start + maxChars >= |text| <==> k == PieceCount(|text|, maxChars, overlap) - 1)
  {
    var count, stride := PieceCount(|text|, maxChars, overlap), maxChars - overlap;
    CountBounds(|text|, maxChars, overlap);
    ProductOfDifference(count - 1, k, stride);
    ProductOfDifference(k, 0, stride);
    ProductOfDifference(count, 1, stride);
    if k > 0 {
      AtLeastOne(k, stride);
    }
    if k < count - 1 {
      AtLeastOne(count - 1 - k, stride);
    }
  }

  lemma NextStart(k: nat, stride: int)
    ensures (k + 1) * stride == k * stride + stride
  {
  }

  /** Two overlapping stretches of a text: the end of the one is the beginning of the other. */
  lemma SharedPart(text: string, start: nat, end: nat, next: nat, last: nat, overlap: nat)
    requires start <= next <= end <= |text| && end == next + overlap && end <= last <= |text|
    ensures text[start..end][next - start..] == text[next..last][..overlap]
  {
  }

  lemma ShortText(text: string, maxChars: nat, overlap: int)
    requires |text| <= maxChars
    ensures WindowList(text, maxChars, overlap) == if text == "" then [] else [text]
  {
  }

  /** Every window fits, and neighbours have exactly `overlap` characters of the text in common. */
  lemma {:induction false} NeighboursShare(text: string, maxChars: nat, overlap: int, k: nat)
    requires Terminates(text, maxChars, overlap) && overlap >= 0
    requires k < |WindowList(text, maxChars, overlap)|
    ensures var out := WindowList(text, maxChars, overlap);
            && 0 < |out[k]| <= maxChars
            && (k + 1 < |out| ==>
                  && |out[k]| == maxChars && |out[k + 1]| > overlap
                  && out[k][maxChars - overlap..] == out[k + 1][..overlap]
                  && k * (maxChars - overlap) + maxChars - (k + 1) * (maxChars - overlap) == overlap)
  {
    hide Piece, PieceCount;
    if |text| > maxChars {
      var stride := maxChars - overlap;
      var start, next := k * stride, (k + 1) * stride;
      PiecePlace(text, maxChars, overlap, k);
      NextStart(k, stride);
      if k + 1 < |WindowList(text, maxChars, overlap)| {
        PiecePlace(text, maxChars, overlap, k + 1);
        SharedPart(text, start, start + maxChars, next, Min(next + maxChars, |text|), overlap);
      }
    } else {
      ShortText(text, maxChars, overlap);
    }
  }

  /** The first piece, followed by every other piece without its first `overlap` characters. */
  function Glue(pieces: seq<string>, overlap: nat): string {
    if pieces == [] then ""
    else if |pieces| == 1 then pieces[0]
    else Glue(pieces[..|pieces| - 1], overlap) + Slice(pieces[|pieces| - 1], overlap, |pieces[|pieces| - 1]|)
  }

  lemma GlueSnoc(pieces: seq<string>, piece: string, overlap: nat)
    requires pieces != []
    ensures Glue(pieces + [piece], overlap) == Glue(pieces, overlap) + Slice(piece, overlap, |piece|)
  {
    assert (pieces + [piece])[..|pieces|] == pieces;
  }

  /** What window k adds to the text that the windows before it cover. */
  lemma PieceAdds(text: string, maxChars: nat, overlap: nat, k: nat)
    requires |text| > maxChars && overlap < maxChars
    requires 1 <= k < PieceCount(|text|, maxChars, overlap)
    ensures var p, stride := Piece(text, maxChars, overlap, k), maxChars - overlap;
            Slice(text, 0, (k - 1) * stride + maxChars) + Slice(p, overlap, |p|)
              == Slice(text, 0, k * stride + maxChars)
  {
    PiecePlace(text, maxChars, overlap, k);
    ProductOfDifference(k, 1, maxChars - overlap);
  }

  lemma FirstPiece(text: string, maxChars: nat, overlap: nat)
    ensures Glue([Piece(text, maxChars, overlap, 0)], overlap) == Slice(text, 0, maxChars)
  {
  }

  lemma {:induction false} GluePrefix(text: string, maxChars: nat, overlap: nat, j: nat)
    requires |text| > maxChars && overlap < maxChars
    requires j < PieceCount(|text|, maxChars, overlap)
    ensures Glue(WindowList(text, maxChars, overlap)[..j + 1], overlap)
         == Slice(text, 0, j * (maxChars - overlap) + maxChars)
  {
    hide Piece, PieceCount, Glue, Slice, WindowList;
    var out := WindowList(text, maxChars, overlap);
    if j == 0 {
      FirstPiece(text, maxChars, overlap);
      assert out[..1] == [Piece(text, maxChars, overlap, 0)];
    } else {
      GluePrefix(text, maxChars, overlap, j - 1);
      PieceAdds(text, maxChars, overlap, j);
      assert out[..j + 1] == out[..j] + [out[j]];
      GlueSnoc(out[..j], out[j], overlap);
    }
  }

  /** Gluing the windows back together gives the text. */
  lemma {:induction false} GlueRestores(text: string, maxChars: nat, overlap: nat)
    requires Terminates(text, maxChars, overlap)
    ensures Glue(WindowList(text, maxChars, overlap), overlap) == text
  {
    if |text| > maxChars {
      var out := WindowList(text, maxChars, overlap);
      CountBounds(|text|, maxChars, overlap);
      GluePrefix(text, maxChars, overlap, |out| - 1);
      PiecePlace(text, maxChars, overlap, |out| - 1);
      assert out[..|out|] == out;
    }
  }

  // ----- When the loop ends -----

  /** Where the loop's (k+1)-th round starts, if it gets there. */
  function RoundStart(n: nat, maxChars: nat, overlap: int, k: nat): int {
    if k == 0 then 0 else Min(RoundStart(n, maxChars, overlap, k - 1) + maxChars, n) - overlap
  }

  /** The loop ends in this round: its guard fails, or it breaks at the end of the text. */
  predicate Ends(n: nat, maxChars: nat, overlap: int, k: nat) {
    RoundStart(n, maxChars, overlap, k) >= n || RoundStart(n, maxChars, overlap, k) + maxChars >= n
  }

  lemma {:induction false} NeverAdvances(n: nat, maxChars: nat, overlap: int, k: nat)
    requires overlap >= maxChars
    ensures RoundStart(n, maxChars, overlap, k) <= 0
  {
    if k == 0 {
    } else {
      NeverAdvances(n, maxChars, overlap, k - 1);
    }
  }

  lemma {:induction false} Advances(n: nat, maxChars: nat, overlap: int, k: nat)
    requires overlap < maxChars
    requires forall i: nat :: i < k ==> !Ends(n, maxChars, overlap, i)
    ensures RoundStart(n, maxChars, overlap, k) >= k
  {
    if k == 0 {
    } else {
      Advances(n, maxChars, overlap, k - 1);
      assert !Ends(n, maxChars, overlap, k - 1);
    }
  }

  /** A text longer than one window is ever finished exactly when the overlap is smaller than the window. */
  lemma LoopEndsIff(n: nat, maxChars: nat, overlap: int)
    requires n > maxChars
    ensures (exists k: nat :: Ends(n, maxChars, overlap, k)) <==> overlap < maxChars
  {
    if overlap < maxChars {
      if forall k: nat :: !Ends(n, maxChars, overlap, k) {
        Advances(n, maxChars, overlap, n);
        assert Ends(n, maxChars, overlap, n);
      }
    } else {
      forall k: nat
        ensures !Ends(n, maxChars, overlap, k)
      {
        NeverAdvances(n, maxChars, overlap, k);
      }
    }
  }
}
