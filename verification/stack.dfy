/**
 * Height arithmetic of the two-column grid, shared by the sizing estimate
 * and the layout: tiles are taken two to a row, a row is as tall as its
 * taller member, and one margin separates consecutive rows.
 */
module Stack {
  import opened Config

  /** Height of the row that starts at hs[0]: the taller of its one or two members. */
  function RowMax(hs: seq<int>): (r: int)
    requires |hs| > 0
    ensures r >= hs[0] && (|hs| >= 2 ==> r >= hs[1])
    ensures r == hs[0] || (|hs| >= 2 && r == hs[1])
  {
    if |hs| == 1 then hs[0] else Max(hs[0], hs[1])
  }

  /** The row heights of a grid whose tiles have heights hs: one per row, ceil(|hs| / 2) rows. */
  function RowMaxima(hs: seq<int>): (rows: seq<int>)
    ensures |rows| == (|hs| + 1) / 2
    decreases |hs|
  {
    if |hs| == 0 then []
    else if |hs| <= 2 then [RowMax(hs)]
    else [RowMax(hs)] + RowMaxima(hs[2..])
  }

  /** No height in hs is negative. */
  predicate NoNegative(hs: seq<int>) {
    forall k :: 0 <= k < |hs| ==> hs[k] >= 0
  }

  /** Height of the grid: its rows, with a margin between consecutive rows and none after the last. */
  function RowsHeight(hs: seq<int>, margin: int): (r: int)
    ensures margin >= 0 && NoNegative(hs) ==> r >= 0
    decreases |hs|
  {
    if |hs| == 0 then 0
    else if |hs| <= 2 then RowMax(hs)
    else RowMax(hs) + margin + RowsHeight(hs[2..], margin)
  }

  lemma {:induction false} RowsHeightNonNeg(hs: seq<int>, margin: int)
    requires margin >= 0 && forall k :: 0 <= k < |hs| ==> hs[k] >= 0
    ensures RowsHeight(hs, margin) >= 0
    decreases |hs|
  {
    if |hs| > 2 {
      RowsHeightNonNeg(hs[2..], margin);
    }
  }

  /** With no negative height or margin, the grid is at least as tall as each of its tiles. */
  lemma {:induction false} RowsHeightCovers(hs: seq<int>, margin: int)
    ensures margin >= 0 && (forall k :: 0 <= k < |hs| ==> hs[k] >= 0) ==>
              && 0 <= RowsHeight(hs, margin)
              && forall k :: 0 <= k < |hs| ==> hs[k] <= RowsHeight(hs, margin)
    decreases |hs|
  {
    if margin >= 0 && (forall k :: 0 <= k < |hs| ==> hs[k] >= 0) {
      RowsHeightNonNeg(hs, margin);
    }
    if margin >= 0 && (forall k :: 0 <= k < |hs| ==> hs[k] >= 0) && |hs| > 2 {
      var rest := hs[2..];
      RowsHeightCovers(rest, margin);
      RowsHeightNonNeg(rest, margin);
      forall k | 2 <= k < |hs| ensures hs[k] <= RowsHeight(hs, margin) {
        assert hs[k] == rest[k - 2];
      }
    }
  }

  function Sum(xs: seq<int>): int {
    if xs == [] then 0 else xs[0] + Sum(xs[1..])
  }

  /** Row r holds tiles 2r and (when present) 2r + 1, and is as tall as the taller. */
  lemma {:induction false} RowMaximaAt(hs: seq<int>, r: int)
    requires 0 <= r < (|hs| + 1) / 2
    ensures 2 * r < |hs| && RowMaxima(hs)[r] == RowMax(hs[2 * r..])
  {
    if r > 0 {
      RowMaximaAt(hs[2..], r - 1);
      assert hs[2..][2 * (r - 1)..] == hs[2 * r..];
    }
  }

  /** Tile j lies in row j / 2, which is at least as tall as the tile. */
  lemma RowCovers(hs: seq<int>, j: int)
    requires 0 <= j < |hs|
    ensures j / 2 < |RowMaxima(hs)| && hs[j] <= RowMaxima(hs)[j / 2]
  {
    var r := j / 2;
    RowMaximaAt(hs, r);
    assert hs[2 * r..][j - 2 * r] == hs[j];
  }

  /**
   * The grid height is the sum of the ceil(n / 2) row heights plus one margin
   * for each gap between consecutive rows.
   */
  lemma {:induction false} RowsHeightIsSum(hs: seq<int>, margin: int)
    requires |hs| > 0
    ensures RowsHeight(hs, margin) == Sum(RowMaxima(hs)) + margin * ((|hs| + 1) / 2 - 1)
  {
    if |hs| > 2 {
      RowsHeightIsSum(hs[2..], margin);
      var rows := RowMaxima(hs);
      assert rows[1..] == RowMaxima(hs[2..]);
    }
  }

  /**
   * One step of a row-by-row walk over hs from tile i: the row starting at i
   * contributes its height, plus a margin when more rows follow.
   */
  lemma RowStep(hs: seq<int>, i: int, margin: int)
    requires 0 <= i < |hs|
    ensures RowMaxima(hs[i..]) == [RowMax(hs[i..])] + RowMaxima(hs[Min(i + 2, |hs|)..])
    ensures RowsHeight(hs[i..], margin)
            == RowMax(hs[i..]) + (if i + 2 < |hs| then margin else 0) + RowsHeight(hs[Min(i + 2, |hs|)..], margin)
  {
    if i + 2 < |hs| {
      assert hs[i..][2..] == hs[i + 2..];
    } else {
      assert hs[Min(i + 2, |hs|)..] == [];
    }
  }
}
