/**
 * The completion metric stored with a saved painting, and the records that
 * `savePainting` inserts and `updatePainting` sends. The database calls are
 * not part of this model; what is modelled is what gets sent.
 */
module Completion {
  import opened PaintTypes
  import opened RealFacts

  /** A JavaScript number as it can come out of the percentage formula. */
  datatype Percent = NaN | Value(n: int)

  /** `paintingData.regions.filter(r => r.isPainted).length`. */
  function PaintedCount(rs: seq<Region>): (n: nat)
    ensures n <= |rs|
    ensures n == |rs| <==> forall i :: 0 <= i < |rs| ==> IsPainted(rs[i])
    ensures n == 0 <==> forall i :: 0 <= i < |rs| ==> !IsPainted(rs[i])
  {
    if rs == [] then 0
    else
      assert forall i :: 1 <= i < |rs| ==> rs[i] == rs[1..][i - 1];
      (if IsPainted(rs[0]) then 1 else 0) + PaintedCount(rs[1..])
  }

  /**
   * `Math.round((painted / total) * 100)` in exact arithmetic: rounding half up
   * is `floor(100 * painted / total + 1/2)`, which is the integer quotient below.
   * Nothing guards `total == 0`, where the ratio 0/0 is NaN.
   */
  function RoundedPercentage(painted: nat, total: nat): (pct: Percent)
    requires painted <= total
    ensures pct == NaN <==> total == 0
  {
    if total == 0 then NaN else Value((200 * painted + total) / (2 * total))
  }

  /** `completion_percentage` for a region list. */
  function CompletionPercentage(rs: seq<Region>): (pct: Percent)
    ensures pct == NaN <==> |rs| == 0
  {
    RoundedPercentage(PaintedCount(rs), |rs|)
  }

  /** `is_completed: completionPercentage === 100`; NaN is never equal to 100. */
  predicate IsCompleted(pct: Percent) {
    pct == Value(100)
  }

  /** The quotient is the nearest integer to 100 * painted / total, halves rounded up. */
  lemma RoundsHalfUp(painted: nat, total: nat)
    requires painted <= total && total > 0
    ensures var v := RoundedPercentage(painted, total).n;
      (v as real) - 0.5 <= 100.0 * (painted as real) / (total as real) < (v as real) + 0.5
  {
    var q, d := 200 * painted + total, 2 * total;
    var v := q / d;
    QuotientBounds(q, d);
    assert 2 * total * v - total <= 200 * painted < 2 * total * v + total;
    ScaledBounds(total as real, painted as real, v as real);
  }

  lemma QuotientBounds(q: nat, d: nat)
    requires d > 0
    ensures d * (q / d) <= q < d * (q / d) + d
  {
  }

  lemma ScaledBounds(t: real, p: real, w: real)
    requires t > 0.0 && 2.0 * t * w - t <= 200.0 * p < 2.0 * t * w + t
    ensures w - 0.5 <= 100.0 * p / t < w + 0.5
  {
    var x := 100.0 * p / t;
    assert x * t == 100.0 * p;
    assert 2.0 * t * w == 2.0 * (w * t);
    if x < w - 0.5 {
      PositiveProduct(w - 0.5 - x, t);
    }
    if x >= w + 0.5 {
      NonNegativeProduct(x - w - 0.5, t);
    }
  }

  /** For a real region list the percentage is an integer in 0..100, 0 when nothing and 100 when everything is painted. */
  lemma PercentageRange(painted: nat, total: nat)
    requires painted <= total && total > 0
    ensures 0 <= RoundedPercentage(painted, total).n <= 100
    ensures painted == 0 ==> RoundedPercentage(painted, total) == Value(0)
    ensures painted == total ==> RoundedPercentage(painted, total) == Value(100)
  {
    var q, d := 200 * painted + total, 2 * total;
    assert q < 101 * d;
    DivBelow(q, d, 101);
    if painted == total {
      assert q == 100 * d + total;
      DivExact(q, d, 100, total);
    }
    if painted == 0 {
      DivExact(q, d, 0, total);
    }
  }

  /** Painting more regions never lowers the percentage. */
  lemma PercentageMonotone(p1: nat, p2: nat, total: nat)
    requires p1 <= p2 <= total && total > 0
    ensures RoundedPercentage(p1, total).n <= RoundedPercentage(p2, total).n
  {
    var d := 2 * total;
    var a, b := 200 * p1 + total, 200 * p2 + total;
    assert a <= b;
    DivMonotone(a, b, d);
  }

  /**
   * `is_completed` holds exactly when at least 99.5% of the regions are painted,
   * so it can hold with regions still unpainted; with no regions it is false.
   */
  lemma CompletedExactly(painted: nat, total: nat)
    requires painted <= total
    ensures IsCompleted(RoundedPercentage(painted, total)) <==> total > 0 && 200 * painted >= 199 * total
  {
    if total > 0 {
      var q, d := 200 * painted + total, 2 * total;
      assert q < 101 * d;
      if 200 * painted >= 199 * total {
        assert q >= 100 * d;
        DivExact(q, d, 100, q - 100 * d);
      } else {
        assert q < 100 * d;
        DivBelow(q, d, 100);
      }
    }
  }

  /** One unpainted region among 200 or more still reports 100% and completed. */
  lemma CompletedWithOneUnpainted(total: nat)
    requires total >= 200
    ensures RoundedPercentage(total - 1, total) == Value(100)
    ensures IsCompleted(RoundedPercentage(total - 1, total))
  {
    CompletedExactly(total - 1, total);
    PercentageRange(total - 1, total);
  }

  lemma MulMonotone(a: int, b: int, d: nat)
    requires a <= b
    ensures a * d <= b * d
  {
    assert b * d - a * d == (b - a) * d;
  }

  lemma DivExact(q: nat, d: nat, v: nat, r: nat)
    requires d > 0 && q == v * d + r && r < d
    ensures q / d == v
  {
    var v', r' := q / d, q % d;
    assert q == v' * d + r' && 0 <= r' < d;
    if v' > v {
      MulMonotone(v + 1, v', d);
    } else if v' < v {
      MulMonotone(v' + 1, v, d);
    }
  }

  lemma DivBelow(q: nat, d: nat, k: nat)
    requires d > 0 && q < k * d
    ensures q / d < k
  {
    var v := q / d;
    assert v * d <= q;
    if v >= k {
      MulMonotone(k, v, d);
    }
  }

  lemma DivMonotone(a: nat, b: nat, d: nat)
    requires d > 0 && a <= b
    ensures a / d <= b / d
  {
    var va, vb := a / d, b / d;
    assert va * d <= a && b < (vb + 1) * d;
    if va > vb {
      MulMonotone(vb + 1, va, d);
    }
  }

  datatype User = User(id: string)

  /** A row of the `user_paintings` table. */
  datatype UserPainting = UserPainting(
    id: string,
    userId: string,
    title: string,
    originalImageUrl: string,
    processedImageUrl: Option<string>,
    paintingData: PaintData,
    completionPercentage: Percent,
    isCompleted: bool,
    createdAt: string,
    updatedAt: string)

  /** The object `savePainting` passes to `insert`. */
  datatype InsertRow = InsertRow(
    userId: string,
    title: string,
    originalImageUrl: string,
    processedImageUrl: Option<string>,
    paintingData: PaintData,
    completionPercentage: Percent,
    isCompleted: bool)

  datatype SaveRequest = NotAuthenticated(message: string) | Insert(row: InsertRow)

  /** What `savePainting` does before the database: refuse without a user, else build the row. */
  function SavePainting(user: Option<User>, title: string, originalImageUrl: string,
                        processedImageUrl: Option<string>, data: PaintData): (r: SaveRequest)
    ensures user.None? <==> r == NotAuthenticated("User not authenticated")
    ensures r.Insert? ==> r.row.userId == user.value.id && r.row.title == title
    ensures r.Insert? ==> r.row.originalImageUrl == originalImageUrl && r.row.processedImageUrl == processedImageUrl
    ensures r.Insert? ==> r.row.paintingData == data
    ensures r.Insert? ==> r.row.completionPercentage == CompletionPercentage(data.regions)
    ensures r.Insert? && |data.regions| > 0 ==> 0 <= r.row.completionPercentage.n <= 100
    ensures r.Insert? ==> (r.row.isCompleted <==>
      |data.regions| > 0 && 200 * PaintedCount(data.regions) >= 199 * |data.regions|)
  {
    if user.None? then NotAuthenticated("User not authenticated")
    else
      var pct := CompletionPercentage(data.regions);
      CompletedExactly(PaintedCount(data.regions), |data.regions|);
      assert |data.regions| > 0 ==> 0 <= pct.n <= 100 by {
        if |data.regions| > 0 {
          PercentageRange(PaintedCount(data.regions), |data.regions|);
        }
      }
      Insert(InsertRow(user.value.id, title, originalImageUrl, processedImageUrl, data, pct, IsCompleted(pct)))
  }

  /** The object `updatePainting` passes to `update`; `title` is present only when it was given and non-empty. */
  datatype UpdateData = UpdateData(
    paintingData: PaintData,
    completionPercentage: Percent,
    isCompleted: bool,
    updatedAt: string,
    title: Option<string>)

  /** `updateData` of `updatePainting`; `now` is `new Date().toISOString()`. */
  function UpdateRecord(data: PaintData, title: Option<string>, now: string): (u: UpdateData)
    ensures u.paintingData == data && u.updatedAt == now
    ensures u.isCompleted <==> |data.regions| > 0 && 200 * PaintedCount(data.regions) >= 199 * |data.regions|
    ensures u.title.Some? <==> title.Some? && title.value != ""
    ensures u.title.Some? ==> u.title == title
  {
    var pct := CompletionPercentage(data.regions);
    CompletedExactly(PaintedCount(data.regions), |data.regions|);
    UpdateData(data, pct, IsCompleted(pct), now,
               if title.Some? && title.value != "" then title else None)
  }

  /** The row after the update: the columns present in the update change, the others stay. */
  function ApplyUpdate(row: UserPainting, u: UpdateData): (row': UserPainting)
    ensures row'.id == row.id && row'.userId == row.userId && row'.createdAt == row.createdAt
    ensures row'.originalImageUrl == row.originalImageUrl && row'.processedImageUrl == row.processedImageUrl
    ensures u.title.None? ==> row'.title == row.title
  {
    row.(paintingData := u.paintingData,
         completionPercentage := u.completionPercentage,
         isCompleted := u.isCompleted,
         updatedAt := u.updatedAt,
         title := if u.title.Some? then u.title.value else row.title)
  }

  /**
   * An update always refreshes the painting data, percentage, completion flag
   * and timestamp; an absent or empty title leaves the stored title as it was.
   */
  lemma UpdateTitle(row: UserPainting, data: PaintData, title: Option<string>, now: string)
    ensures var row' := ApplyUpdate(row, UpdateRecord(data, title, now));
      && row'.paintingData == data && row'.updatedAt == now
      && row'.completionPercentage == CompletionPercentage(data.regions)
      && row'.isCompleted == IsCompleted(CompletionPercentage(data.regions))
      && (title.None? || title == Some("") ==> row'.title == row.title)
      && (title.Some? && title.value != "" ==> row'.title == title.value)
      && row'.id == row.id && row'.userId == row.userId && row'.createdAt == row.createdAt
  {
  }
}
