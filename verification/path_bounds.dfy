/**
 * The label-placement helper of the painting canvas (`getPathBounds`): it pulls
 * every run of digits and dots out of an SVG path string, converts each run with
 * JavaScript's `Number`, and takes even positions as x and odd positions as y
 * coordinates of a bounding box. NaN is modelled explicitly as `None`.
 */
module PathBounds {
  import opened PaintTypes
  import opened Numerals

  /** The character class `[\d.]` of the regular expression. */
  predicate IsNumChar(c: char) {
    '0' <= c <= '9' || c == '.'
  }

  /** A non-empty run of number characters: what one match of `[\d.]+` can be. */
  predicate IsToken(t: string) {
    |t| > 0 && forall i :: 0 <= i < |t| ==> IsNumChar(t[i])
  }

  /** Length of the longest prefix of `s` made of number characters. */
  function RunLength(s: string): (n: nat)
    ensures n <= |s|
    ensures forall i :: 0 <= i < n ==> IsNumChar(s[i])
    ensures n < |s| ==> !IsNumChar(s[n])
  {
    if s == [] || !IsNumChar(s[0]) then 0 else 1 + RunLength(s[1..])
  }

  /** All matches of the global regular expression `[\d.]+` in `s`, left to right. */
  function Tokens(s: string): (ts: seq<string>)
    ensures forall k :: 0 <= k < |ts| ==> IsToken(ts[k])
    decreases |s|
  {
    if s == [] then []
    else if !IsNumChar(s[0]) then Tokens(s[1..])
    else
      var n := RunLength(s);
      [s[..n]] + Tokens(s[n..])
  }

  function Pow10(k: nat): (p: nat)
    ensures p >= 1
  {
    if k == 0 then 1 else 10 * Pow10(k - 1)
  }

  /** Index of the first '.' in `t`. */
  function DotIndex(t: string): (i: nat)
    requires '.' in t
    ensures i < |t| && t[i] == '.' && '.' !in t[..i]
  {
    if t[0] == '.' then 0
    else
      assert '.' in t[1..] by {
        var j :| 0 <= j < |t| && t[j] == '.';
        assert t[1..][j - 1] == '.';
      }
      1 + DotIndex(t[1..])
  }

  /**
   * JavaScript's `Number(t)` on a match of `[\d.]+`: digits with at most one
   * decimal point and at least one digit; anything else is NaN (`None`).
   */
  function ParseNumber(t: string): (v: Option<real>)
    ensures v.Some? ==> v.value >= 0.0
    ensures v.None? ==> '.' in t
  {
    if '.' !in t then Some(ValueIn(t, 10) as real)
    else
      var i := DotIndex(t);
      var whole, fraction := t[..i], t[i + 1..];
      if '.' in fraction || (whole == [] && fraction == []) then None
      else Some(ValueIn(whole, 10) as real + ValueIn(fraction, 10) as real / Pow10(|fraction|) as real)
  }

  /** `pathString.match(/[\d.]+/g)?.map(Number) || []`. */
  function Numbers(path: string): (nums: seq<Option<real>>)
    ensures |nums| == |Tokens(path)|
  {
    var ts := Tokens(path);
    seq(|ts|, k requires 0 <= k < |ts| => ParseNumber(ts[k]))
  }

  /** `numbers.filter((_, i) => i % 2 === 0)`. */
  function Evens<T>(s: seq<T>): (r: seq<T>)
    ensures |r| == (|s| + 1) / 2
    ensures forall k :: 0 <= k < |r| ==> r[k] == s[2 * k]
  {
    seq((|s| + 1) / 2, k requires 0 <= k < (|s| + 1) / 2 => s[2 * k])
  }

  /**
   * `Evens` and `Odds` are the source's index filters: the entry at an even
   * position `i` of the input is entry `i / 2` of `Evens`, and the entry at
   * an odd position is entry `i / 2` of `Odds`.
   */
  lemma ParityFilters<T>(s: seq<T>)
    ensures forall i :: 0 <= i < |s| && i % 2 == 0 ==> i / 2 < |Evens(s)| && Evens(s)[i / 2] == s[i]
    ensures forall i :: 0 <= i < |s| && i % 2 == 1 ==> i / 2 < |Odds(s)| && Odds(s)[i / 2] == s[i]
  {
    forall i | 0 <= i < |s| && i % 2 == 0
      ensures i / 2 < |Evens(s)| && Evens(s)[i / 2] == s[i]
    {
      assert 2 * (i / 2) == i;
    }
    forall i | 0 <= i < |s| && i % 2 == 1
      ensures i / 2 < |Odds(s)| && Odds(s)[i / 2] == s[i]
    {
      assert 2 * (i / 2) + 1 == i;
    }
  }

  /** `numbers.filter((_, i) => i % 2 === 1)`. */
  function Odds<T>(s: seq<T>): (r: seq<T>)
    ensures |r| == |s| / 2
    ensures forall k :: 0 <= k < |r| ==> r[k] == s[2 * k + 1]
  {
    seq(|s| / 2, k requires 0 <= k < |s| / 2 => s[2 * k + 1])
  }

  /** One axis of the box: its least coordinate and its extent (`max - min`). */
  datatype Extent = Extent(lo: real, size: real)

  /** The box of `getPathBounds`; an axis is `None` when its `Math.min`/`Math.max` is NaN. */
  datatype Bounds = Bounds(x: Option<Extent>, y: Option<Extent>)

  /** `{ x: 0, y: 0, width: 100, height: 100 }`, used for paths with fewer than 4 numbers. */
  const DefaultBounds := Bounds(Some(Extent(0.0, 100.0)), Some(Extent(0.0, 100.0)))

  predicate Within(e: Extent, v: real) {
    e.lo <= v <= e.lo + e.size
  }

  /**
   * `Math.min(...vs)` and `Math.max(...vs)` as one extent: NaN as soon as one
   * value is NaN, otherwise the tightest extent holding every value.
   */
  function AxisExtent(vs: seq<Option<real>>): (e: Option<Extent>)
    requires |vs| > 0
    ensures e.None? <==> exists i :: 0 <= i < |vs| && vs[i].None?
    ensures e.Some? ==> e.value.size >= 0.0
    ensures e.Some? ==> forall i :: 0 <= i < |vs| ==> Within(e.value, vs[i].value)
    ensures e.Some? ==> exists i :: 0 <= i < |vs| && vs[i].value == e.value.lo
    ensures e.Some? ==> exists i :: 0 <= i < |vs| && vs[i].value == e.value.lo + e.value.size
  {
    if |vs| == 1 then
      (if vs[0].None? then None else Some(Extent(vs[0].value, 0.0)))
    else
      var rest := AxisExtent(vs[1..]);
      if vs[0].None? || rest.None? then
        (if rest.None? then
           var j :| 0 <= j < |vs[1..]| && vs[1..][j].None?;
           assert vs[j + 1].None?;
           None
         else None)
      else
        var v, e := vs[0].value, rest.value;
        var lo := if v < e.lo then v else e.lo;
        var hi := if v > e.lo + e.size then v else e.lo + e.size;
        assert forall i :: 1 <= i < |vs| ==> vs[i] == vs[1..][i - 1];
        Some(Extent(lo, hi - lo))
  }

  /** The box `getPathBounds` builds from the numbers of a path. */
  function BoundsOf(nums: seq<Option<real>>): (b: Bounds)
    ensures |nums| < 4 ==> b == DefaultBounds
  {
    if |nums| < 4 then DefaultBounds
    else Bounds(AxisExtent(Evens(nums)), AxisExtent(Odds(nums)))
  }

  /** `getPathBounds(pathString)`. */
  function GetPathBounds(path: string): (b: Bounds)
    ensures |Numbers(path)| < 4 ==> b == DefaultBounds
  {
    BoundsOf(Numbers(path))
  }

  /** One axis: the extent of the numbers at positions of parity `p`, read through `sub`. */
  lemma AxisCovers(nums: seq<Option<real>>, sub: seq<Option<real>>, p: nat)
    requires p < 2 && |sub| > 0
    requires |sub| == (|nums| + 1 - p) / 2
    requires forall k :: 0 <= k < |sub| ==> sub[k] == nums[2 * k + p]
    ensures var e := AxisExtent(sub);
      && (e.None? <==> exists i :: 0 <= i < |nums| && i % 2 == p && nums[i].None?)
      && (e.Some? ==> forall i :: 0 <= i < |nums| && i % 2 == p ==> Within(e.value, nums[i].value))
  {
    forall i | 0 <= i < |nums| && i % 2 == p
      ensures nums[i] == sub[i / 2]
    {
    }
  }

  /**
   * With at least four numbers, the x extent covers every number at an even
   * position and the y extent every number at an odd position, each extent is
   * non-negative, and each axis is NaN exactly when one of its numbers is.
   */
  lemma PathBoundsContain(path: string)
    requires |Numbers(path)| >= 4
    ensures var nums, b := Numbers(path), GetPathBounds(path);
      && (b.x.None? <==> exists i :: 0 <= i < |nums| && i % 2 == 0 && nums[i].None?)
      && (b.y.None? <==> exists i :: 0 <= i < |nums| && i % 2 == 1 && nums[i].None?)
      && (b.x.Some? ==> b.x.value.size >= 0.0)
      && (b.y.Some? ==> b.y.value.size >= 0.0)
      && (b.x.Some? ==> forall i :: 0 <= i < |nums| && i % 2 == 0 ==> Within(b.x.value, nums[i].value))
      && (b.y.Some? ==> forall i :: 0 <= i < |nums| && i % 2 == 1 ==> Within(b.y.value, nums[i].value))
  {
    BoundsContain(Numbers(path));
  }

  /** The same facts for the box built from any list of four or more numbers. */
  lemma BoundsContain(nums: seq<Option<real>>)
    requires |nums| >= 4
    ensures var b := BoundsOf(nums);
      && (b.x.None? <==> exists i :: 0 <= i < |nums| && i % 2 == 0 && nums[i].None?)
      && (b.y.None? <==> exists i :: 0 <= i < |nums| && i % 2 == 1 && nums[i].None?)
      && (b.x.Some? ==> b.x.value.size >= 0.0)
      && (b.y.Some? ==> b.y.value.size >= 0.0)
      && (b.x.Some? ==> forall i :: 0 <= i < |nums| && i % 2 == 0 ==> Within(b.x.value, nums[i].value))
      && (b.y.Some? ==> forall i :: 0 <= i < |nums| && i % 2 == 1 ==> Within(b.y.value, nums[i].value))
  {
    AxisCovers(nums, Evens(nums), 0);
    AxisCovers(nums, Odds(nums), 1);
  }

  lemma {:induction false} RunLengthOfToken(t: string, s: string)
    requires IsToken(t) && (s == [] || !IsNumChar(s[0]))
    ensures RunLength(t + s) == |t|
    decreases |t|
  {
    if |t| > 1 {
      assert (t + s)[1..] == t[1..] + s;
      RunLengthOfToken(t[1..], s);
    } else {
      assert (t + s)[1..] == s;
    }
  }

  /** A run of number characters followed by a separator is matched as one token. */
  lemma TokensOfToken(t: string, s: string)
    requires IsToken(t) && (s == [] || !IsNumChar(s[0]))
    ensures Tokens(t + s) == [t] + Tokens(s)
  {
    RunLengthOfToken(t, s);
    assert (t + s)[..|t|] == t;
    assert (t + s)[|t|..] == s;
  }

  /** Characters outside `[\d.]` are skipped by the tokenizer. */
  lemma {:induction false} TokensOfSeparator(sep: string, s: string)
    requires forall i :: 0 <= i < |sep| ==> !IsNumChar(sep[i])
    ensures Tokens(sep + s) == Tokens(s)
    decreases |sep|
  {
    if sep != [] {
      var whole := sep + s;
      assert whole != [] && whole[0] == sep[0];
      assert whole[1..] == sep[1..] + s;
      assert Tokens(whole) == Tokens(whole[1..]);
      TokensOfSeparator(sep[1..], s);
    } else {
      assert sep + s == s;
    }
  }

  /** A decimal numeral printed by JavaScript reads back, through `Number`, as its value. */
  lemma ParseDecimal(n: nat)
    ensures IsToken(Decimal(n))
    ensures ParseNumber(Decimal(n)) == Some(n as real)
  {
    ValueOfDecimal(n);
  }
}
