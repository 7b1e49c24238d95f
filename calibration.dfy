/**
 * The calibration bookkeeping: the two parallel lists of axis multipliers
 * (tracker coordinate over canvas coordinate), their per-axis statistics,
 * and the configuration the calibration ends in. The multipliers, the
 * statistics and the configuration are fields updated in place; the sample
 * configuration, the cross-hair rectangle and the statistics are values.
 */
module Calibration {
  import opened Wrappers
  import opened Scene

  /* ---------------------------------------------------------------- */
  /* Statistics                                                        */
  /* ---------------------------------------------------------------- */

  /** The sum of a list of numbers. */
  function Sum(s: seq<real>): (r: real)
  {
    if |s| == 0 then 0.0 else Sum(s[..|s| - 1]) + s[|s| - 1]
  }

  /** The arithmetic mean (numpy's `mean`). */
  function Mean(s: seq<real>): (r: real)
    requires |s| > 0
    ensures r * (|s| as real) == Sum(s)
    ensures |s| == 1 ==> r == s[0]
  {
    Sum(s) / (|s| as real)
  }

  /** The sum of the squared deviations of the list from `m`. */
  function SquaredDeviations(s: seq<real>, m: real): (r: real)
  {
    if |s| == 0 then 0.0
    else SquaredDeviations(s[..|s| - 1], m) + (s[|s| - 1] - m) * (s[|s| - 1] - m)
  }

  /** The population variance (numpy's `var` with `ddof=0`, the square of `std`). */
  function PopVariance(s: seq<real>): (r: real)
    requires |s| > 0
    ensures r >= 0.0
  {
    SquaredDeviationsNonNegative(s, Mean(s));
    SquaredDeviations(s, Mean(s)) / (|s| as real)
  }

  /** The list of the deviations of the elements of `s` from `m`. */
  function Deviations(s: seq<real>, m: real): (d: seq<real>)
    ensures |d| == |s| && forall i :: 0 <= i < |s| ==> d[i] == s[i] - m
  {
    seq(|s|, i requires 0 <= i < |s| => s[i] - m)
  }

  /** Sums split over concatenation. */
  lemma {:induction false} SumConcat(a: seq<real>, b: seq<real>)
    ensures Sum(a + b) == Sum(a) + Sum(b)
    decreases |b|
  {
    if |b| == 0 {
      assert a + b == a;
    } else {
      assert (a + b)[..|a + b| - 1] == a + b[..|b| - 1];
      SumConcat(a, b[..|b| - 1]);
    }
  }

  /** Appending a sample moves the mean to the weighted average of the old mean and the sample. */
  lemma MeanAppend(s: seq<real>, v: real)
    requires |s| > 0
    ensures Mean(s + [v]) == ((|s| as real) * Mean(s) + v) / ((|s| + 1) as real)
  {
    assert (s + [v])[..|s + [v]| - 1] == s;
  }

  /** A list whose elements lie in `[lo, hi]` has its sum in `[n lo, n hi]`. */
  lemma {:induction false} SumBounds(s: seq<real>, lo: real, hi: real)
    requires forall i :: 0 <= i < |s| ==> lo <= s[i] <= hi
    ensures (|s| as real) * lo <= Sum(s) <= (|s| as real) * hi
    decreases |s|
  {
    if |s| > 0 {
      var t := s[..|s| - 1];
      assert forall i :: 0 <= i < |t| ==> t[i] == s[i];
      SumBounds(t, lo, hi);
      assert (|s| as real) * lo == (|t| as real) * lo + lo;
      assert (|s| as real) * hi == (|t| as real) * hi + hi;
    }
  }

  /** The mean lies between the least and the greatest sample. */
  lemma MeanBounds(s: seq<real>, lo: real, hi: real)
    requires |s| > 0
    requires forall i :: 0 <= i < |s| ==> lo <= s[i] <= hi
    ensures lo <= Mean(s) <= hi
  {
    SumBounds(s, lo, hi);
    var n := |s| as real;
    assert n * lo <= Sum(s) <= n * hi;
    assert Mean(s) * n == Sum(s);
  }

  /** Subtracting `m` from every element lowers the sum by `n m`. */
  lemma {:induction false} DeviationsSum(s: seq<real>, m: real)
    ensures Sum(Deviations(s, m)) == Sum(s) - (|s| as real) * m
    decreases |s|
  {
    if |s| > 0 {
      var t := s[..|s| - 1];
      assert Deviations(s, m)[..|s| - 1] == Deviations(t, m);
      DeviationsSum(t, m);
    }
  }

  /** The deviations from the mean cancel out. */
  lemma DeviationsFromMeanCancel(s: seq<real>)
    requires |s| > 0
    ensures Sum(Deviations(s, Mean(s))) == 0.0
  {
    DeviationsSum(s, Mean(s));
    assert (|s| as real) * Mean(s) == Sum(s);
  }

  /** The square of a non-zero number is positive. */
  lemma SquarePositive(d: real)
    requires d != 0.0
    ensures d * d > 0.0
  {
  }

  /** Squared deviations never sum to a negative number. */
  lemma {:induction false} SquaredDeviationsNonNegative(s: seq<real>, m: real)
    ensures SquaredDeviations(s, m) >= 0.0
    decreases |s|
  {
    if |s| > 0 {
      SquaredDeviationsNonNegative(s[..|s| - 1], m);
      if s[|s| - 1] != m {
        SquarePositive(s[|s| - 1] - m);
      }
    }
  }

  /** With every element equal to `m` there is no deviation from `m`. */
  lemma {:induction false} SquaredDeviationsOfConstant(s: seq<real>, m: real)
    requires forall i :: 0 <= i < |s| ==> s[i] == m
    ensures SquaredDeviations(s, m) == 0.0
    decreases |s|
  {
    if |s| > 0 {
      SquaredDeviationsOfConstant(s[..|s| - 1], m);
    }
  }

  /** A list of one repeated value has that value as its mean. */
  lemma {:induction false} SumOfConstant(s: seq<real>, c: real)
    requires forall i :: 0 <= i < |s| ==> s[i] == c
    ensures Sum(s) == (|s| as real) * c
    decreases |s|
  {
    if |s| > 0 {
      SumOfConstant(s[..|s| - 1], c);
    }
  }

  /** A list of one repeated value has that value as its mean and no variance. */
  lemma StatisticsOfConstant(s: seq<real>, c: real)
    requires |s| > 0 && forall i :: 0 <= i < |s| ==> s[i] == c
    ensures Mean(s) == c && PopVariance(s) == 0.0
  {
    SumOfConstant(s, c);
    assert Mean(s) == c;
    SquaredDeviationsOfConstant(s, c);
  }

  /* ---------------------------------------------------------------- */
  /* Python list deletion                                             */
  /* ---------------------------------------------------------------- */

  /** The indices `del s[i]` accepts: `-n .. n-1`, counting from the end when negative. */
  predicate InRange(i: int, n: nat)
  {
    -(n as int) <= i < n
  }

  /** The position an accepted index denotes. */
  function Position(i: int, n: nat): (p: nat)
    requires InRange(i, n)
    ensures p < n && (p == i || p == i + n)
  {
    if i < 0 then i + n else i
  }

  /** The list after `del s[i]`: the element at position `Position(i, |s|)` is gone, the rest keep their order. */
  function DeleteAt<T>(s: seq<T>, i: int): (r: seq<T>)
    requires InRange(i, |s|)
    ensures |r| == |s| - 1
    ensures forall k :: 0 <= k < Position(i, |s|) ==> r[k] == s[k]
    ensures forall k :: Position(i, |s|) <= k < |r| ==> r[k] == s[k + 1]
  {
    var p := Position(i, |s|);
    s[..p] + s[p + 1..]
  }

  /** `del` removes exactly one occurrence of the element it hits. */
  lemma DeleteAtMultiset<T>(s: seq<T>, i: int)
    requires InRange(i, |s|)
    ensures multiset(DeleteAt(s, i)) + multiset{s[Position(i, |s|)]} == multiset(s)
  {
    var p := Position(i, |s|);
    assert s == s[..p] + [s[p]] + s[p + 1..];
  }

  /** A negative index and its positive counterpart delete the same element. */
  lemma DeleteNegativeIndex<T>(s: seq<T>, i: int)
    requires 0 <= i < |s|
    ensures DeleteAt(s, i - |s|) == DeleteAt(s, i)
  {
  }

  /** Deleting a sample takes its value out of the sum. */
  lemma DeleteAtSum(s: seq<real>, i: int)
    requires InRange(i, |s|)
    ensures Sum(DeleteAt(s, i)) == Sum(s) - s[Position(i, |s|)]
  {
    var p := Position(i, |s|);
    var a, b := s[..p], s[p + 1..];
    assert s == (a + [s[p]]) + b;
    assert (a + [s[p]])[..|a|] == a;
    SumConcat(a + [s[p]], b);
    SumConcat(a, b);
  }

  /** A sample: the x and the y multiplier taken at one calibration point. */
  datatype Sample = Sample(x: real, y: real)

  /** The samples the two parallel lists hold, position by position. */
  function Samples(xs: seq<real>, ys: seq<real>): (r: seq<Sample>)
    requires |xs| == |ys|
    ensures |r| == |xs| && forall k :: 0 <= k < |xs| ==> r[k] == Sample(xs[k], ys[k])
  {
    seq(|xs|, k requires 0 <= k < |xs| => Sample(xs[k], ys[k]))
  }

  /** Deleting the same index from both lists deletes one whole sample. */
  lemma DeleteKeepsParallel(xs: seq<real>, ys: seq<real>, i: int)
    requires |xs| == |ys| && InRange(i, |xs|)
    ensures Samples(DeleteAt(xs, i), DeleteAt(ys, i)) == DeleteAt(Samples(xs, ys), i)
  {
  }

  /** Appending to both lists appends one whole sample. */
  lemma AppendKeepsParallel(xs: seq<real>, ys: seq<real>, x: real, y: real)
    requires |xs| == |ys|
    ensures Samples(xs + [x], ys + [y]) == Samples(xs, ys) + [Sample(x, y)]
  {
  }

  /* ---------------------------------------------------------------- */
  /* Configuration                                                    */
  /* ---------------------------------------------------------------- */

  /** An axis range `[lo, hi]`. */
  datatype Bounds = Bounds(lo: real, hi: real)

  /** The configuration dictionary; `comments` is the `_COMMENTS_` entry, absent until saved. */
  datatype Config = Config(displayMonitor: int, x: Bounds, y: Bounds, hostname: string, port: int,
                           comments: Option<string>)

  const SampleLimit: real := 200.0
  const SampleHostname: string := "0.0.0.0"
  const SamplePort: int := 4000
  const CommentsText: string := "Auto-generated config file."
  const DefaultConfigFile: string := "projection_config.json"

  /** The sample configuration: the given monitor, both axes `[0, 200]`, the RPC server on all interfaces, port 4000. */
  function SampleConfig(monitorNumber: int): (c: Config)
    ensures c.displayMonitor == monitorNumber && c.comments == None
    ensures c.x == c.y == Bounds(0.0, SampleLimit) && c.x.lo < c.x.hi
    ensures c.hostname == SampleHostname && c.port == SamplePort
  {
    Config(monitorNumber, Bounds(0.0, SampleLimit), Bounds(0.0, SampleLimit), SampleHostname, SamplePort, None)
  }

  /** Both ends of an axis range multiplied by `f`. */
  function Scale(b: Bounds, f: real): (r: Bounds)
    ensures r.hi - r.lo == (b.hi - b.lo) * f
    ensures f > 0.0 && b.lo < b.hi ==> r.lo < r.hi
  {
    Bounds(b.lo * f, b.hi * f)
  }

  /** Scaling twice is scaling once by the product, so repeated saves compound. */
  lemma ScaleTwice(b: Bounds, f: real, g: real)
    ensures Scale(Scale(b, f), g) == Scale(b, f * g)
  {
  }

  /** The configuration a save writes: the axes rescaled by the means, the comment added, nothing else changed. */
  function SavedConfig(c: Config, xMean: real, yMean: real): (r: Config)
    ensures r.x == Scale(c.x, xMean) && r.y == Scale(c.y, yMean)
    ensures r.comments == Some(CommentsText)
    ensures r.displayMonitor == c.displayMonitor && r.hostname == c.hostname && r.port == c.port
  {
    c.(x := Scale(c.x, xMean), y := Scale(c.y, yMean), comments := Some(CommentsText))
  }

  /** Saving with unit means changes only the comment. */
  lemma SaveWithUnitMeans(c: Config)
    ensures SavedConfig(c, 1.0, 1.0) == c.(comments := Some(CommentsText))
  {
  }

  /** The file a save writes to: the answer, or the default when the answer is empty. */
  function ConfigFileName(answer: string): (f: string)
    ensures f != ""
    ensures answer != "" ==> f == answer
    ensures answer == "" ==> f == DefaultConfigFile
  {
    if answer != "" then answer else DefaultConfigFile
  }

  /* ---------------------------------------------------------------- */
  /* The cross-hair rectangle                                         */
  /* ---------------------------------------------------------------- */

  /** Half the side of the square drawn around a calibration point. */
  const HalfSide: real := 15.0

  /** A polyline: its points' x and y coordinates. */
  datatype Polyline = Polyline(xs: seq<real>, ys: seq<real>)

  /**
   * The square of side 30 around `loc`, as a closed polyline of five
   * points running through the four corners.
   */
  function CrossHairRectangle(loc: Vec2): (r: Polyline)
    ensures |r.xs| == 5 && |r.ys| == 5
    ensures r.xs[0] == r.xs[4] && r.ys[0] == r.ys[4]
    ensures forall i :: 0 <= i < 5 ==>
              (r.xs[i] == loc.x - HalfSide || r.xs[i] == loc.x + HalfSide) &&
              (r.ys[i] == loc.y - HalfSide || r.ys[i] == loc.y + HalfSide)
    ensures forall i :: 0 <= i < 4 ==> (r.xs[i] == r.xs[i + 1]) != (r.ys[i] == r.ys[i + 1])
  {
    var xmin, ymin := loc.x - HalfSide, loc.y - HalfSide;
    var xmax, ymax := loc.x + HalfSide, loc.y + HalfSide;
    Polyline([xmin, xmax, xmax, xmin, xmin], [ymin, ymin, ymax, ymax, ymin])
  }

  /** The four corners of the rectangle are distinct and centred on `loc`. */
  lemma CrossHairCorners(loc: Vec2)
    ensures var r := CrossHairRectangle(loc);
            forall i, j :: 0 <= i < j < 4 ==> (r.xs[i], r.ys[i]) != (r.xs[j], r.ys[j])
    ensures var r := CrossHairRectangle(loc);
            r.xs[0] + r.xs[1] + r.xs[2] + r.xs[3] == 4.0 * loc.x &&
            r.ys[0] + r.ys[1] + r.ys[2] + r.ys[3] == 4.0 * loc.y
  {
  }

  /* ---------------------------------------------------------------- */
  /* The menu table                                                    */
  /* ---------------------------------------------------------------- */

  /** One row of the menu table: index, both multipliers, and their deviations from the means. */
  datatype Row = Row(index: nat, x: real, y: real, xDeviation: real, yDeviation: real)

  /** The table the menu shows for the given lists and means. */
  function Table(xs: seq<real>, ys: seq<real>, xMean: real, yMean: real): (t: seq<Row>)
    requires |xs| <= |ys|
    ensures |t| == |xs|
    ensures forall i :: 0 <= i < |xs| ==> t[i] == Row(i, xs[i], ys[i], xs[i] - xMean, ys[i] - yMean)
  {
    seq(|xs|, i requires 0 <= i < |xs| => Row(i, xs[i], ys[i], xs[i] - xMean, ys[i] - yMean))
  }

  /** The x-deviation column of a table. */
  function XDeviations(t: seq<Row>): (d: seq<real>)
    ensures |d| == |t| && forall i :: 0 <= i < |t| ==> d[i] == t[i].xDeviation
  {
    seq(|t|, i requires 0 <= i < |t| => t[i].xDeviation)
  }

  /** With exact means the x-deviation column of the table sums to zero. */
  lemma TableDeviationsCancel(xs: seq<real>, ys: seq<real>)
    requires 0 < |xs| <= |ys|
    ensures Sum(XDeviations(Table(xs, ys, Mean(xs), Mean(ys)))) == 0.0
  {
    assert XDeviations(Table(xs, ys, Mean(xs), Mean(ys))) == Deviations(xs, Mean(xs));
    DeviationsFromMeanCancel(xs);
  }

  /** The upper-case form of a character (ASCII letters only). */
  function UpperChar(c: char): (u: char)
  {
    if 'a' <= c <= 'z' then (c as int - 32) as char else c
  }

  /** The upper-case form of a string, as `str.upper` on ASCII text. */
  function Upper(s: string): (u: string)
    ensures |u| == |s| && forall i :: 0 <= i < |s| ==> u[i] == UpperChar(s[i])
  {
    seq(|s|, i requires 0 <= i < |s| => UpperChar(s[i]))
  }

  /** The confirmation test `answer.upper() == "Y"`: it holds for exactly `y` and `Y`. */
  predicate IsYes(answer: string): (b: bool)
    ensures b <==> answer == "y" || answer == "Y"
  {
    Upper(answer) == "Y"
  }

  /* ---------------------------------------------------------------- */
  /* The calibration set-up                                           */
  /* ---------------------------------------------------------------- */

  class CalibrationSetup {
    const trackerName: string
    const monitorNumber: int
    var trackerPosition: Vec2
    var xMultiplier: seq<real>
    var yMultiplier: seq<real>
    var xMean: real
    var xStd: real
    var yMean: real
    var yStd: real
    var config: Config

    /** The two lists are parallel: entry `i` of each comes from the same calibration point. */
    ghost predicate Valid()
      reads this
    {
      |xMultiplier| == |yMultiplier|
    }

    /**
     * A set-up with no samples, zero statistics, the tracker at (1, 1), and
     * the sample configuration with its axes replaced by the monitor's
     * width and height (the canvas's geometry, given here as parameters).
     */
    constructor (trackerName: string, monitorWidth: real, monitorHeight: real, monitorNumber: int := 0)
      ensures this.trackerName == trackerName && this.monitorNumber == monitorNumber
      ensures trackerPosition == Vec2(1.0, 1.0)
      ensures xMultiplier == [] && yMultiplier == [] && Valid()
      ensures xMean == 0.0 && xStd == 0.0 && yMean == 0.0 && yStd == 0.0
      ensures config == SampleConfig(monitorNumber).(x := Bounds(0.0, monitorWidth), y := Bounds(0.0, monitorHeight))
    {
      this.trackerName := trackerName;
      this.monitorNumber := monitorNumber;
      trackerPosition := Vec2(1.0, 1.0);
      xMultiplier := [];
      yMultiplier := [];
      xMean, xStd := 0.0, 0.0;
      yMean, yStd := 0.0, 0.0;
      new;
      config := SampleConfig(monitorNumber);
      config := config.(x := Bounds(0.0, monitorWidth), y := Bounds(0.0, monitorHeight));
    }

    /**
     * The statistics of both lists: means and standard deviations, each
     * rounded by `round`, the square root being `sqrt`; all zero with no samples.
     */
    method CalculateStatistics(round: real -> real, sqrt: real -> real)
      requires Valid()
      modifies this`xMean, this`xStd, this`yMean, this`yStd
      ensures |xMultiplier| > 0 ==>
                xMean == round(Mean(xMultiplier)) && xStd == round(sqrt(PopVariance(xMultiplier))) &&
                yMean == round(Mean(yMultiplier)) && yStd == round(sqrt(PopVariance(yMultiplier)))
      ensures |xMultiplier| == 0 ==> xMean == 0.0 && xStd == 0.0 && yMean == 0.0 && yStd == 0.0
    {
      if |xMultiplier| > 0 {
        xMean := round(Mean(xMultiplier));
        xStd := round(sqrt(PopVariance(xMultiplier)));
        yMean := round(Mean(yMultiplier));
        yStd := round(sqrt(PopVariance(yMultiplier)));
      } else {
        xMean, xStd := 0.0, 0.0;
        yMean, yStd := 0.0, 0.0;
      }
    }

    /**
     * Offers the target point `loc` and, when the answer is y or Y, records
     * the tracker's coordinates divided by the target's, one per axis.
     */
    method AddCalibrationPoint(answer: string, loc: Vec2) returns (confirmed: bool)
      requires loc.x != 0.0 && loc.y != 0.0
      modifies this`xMultiplier, this`yMultiplier
      ensures confirmed <==> IsYes(answer)
      ensures confirmed ==>
                xMultiplier == old(xMultiplier) + [trackerPosition.x / loc.x] &&
                yMultiplier == old(yMultiplier) + [trackerPosition.y / loc.y]
      ensures !confirmed ==> xMultiplier == old(xMultiplier) && yMultiplier == old(yMultiplier)
      ensures Valid() == old(Valid())
    {
      confirmed := IsYes(answer);
      if confirmed {
        xMultiplier := xMultiplier + [trackerPosition.x / loc.x];
        yMultiplier := yMultiplier + [trackerPosition.y / loc.y];
      }
    }

    /**
     * Deletes the entry at the index the user typed from both lists; `None`
     * stands for an answer that is not an integer. An index out of range
     * is reported and leaves the lists; returns whether the deletion happened.
     */
    method DeleteCalibrationPoint(index: Option<int>) returns (deleted: bool)
      modifies this`xMultiplier, this`yMultiplier
      ensures index.None? || !InRange(index.value, |old(xMultiplier)|) ==>
                !deleted && xMultiplier == old(xMultiplier) && yMultiplier == old(yMultiplier)
      ensures index.Some? && InRange(index.value, |old(xMultiplier)|) ==>
                xMultiplier == DeleteAt(old(xMultiplier), index.value) &&
                (deleted <==> InRange(index.value, |old(yMultiplier)|)) &&
                yMultiplier == (if deleted then DeleteAt(old(yMultiplier), index.value) else old(yMultiplier))
      ensures old(Valid()) ==> Valid() && (deleted <==> index.Some? && InRange(index.value, |old(xMultiplier)|))
    {
      deleted := false;
      if index.Some? && InRange(index.value, |xMultiplier|) {
        xMultiplier := DeleteAt(xMultiplier, index.value);
        if InRange(index.value, |yMultiplier|) {
          yMultiplier := DeleteAt(yMultiplier, index.value);
          deleted := true;
        }
      }
    }

    /**
     * Rescales the configured axes by the current means, picks the file
     * name from the answer (the default when empty) and adds the comment
     * entry; the written file is the returned name.
     */
    method ConfirmAndSave(answer: string) returns (filename: string)
      modifies this`config
      ensures config == SavedConfig(old(config), xMean, yMean)
      ensures filename == ConfigFileName(answer)
    {
      config := config.(x := Scale(config.x, xMean), y := Scale(config.y, yMean));
      filename := ConfigFileName(answer);
      config := config.(comments := Some(CommentsText));
    }

    /** The tracker callback: keeps the first two coordinates of the reported position. */
    method ViconPositionUpdater(position: seq<real>)
      requires |position| >= 2
      modifies this`trackerPosition
      ensures trackerPosition == Vec2(position[0], position[1])
    {
      trackerPosition := Vec2(position[0], position[1]);
    }

    /**
     * The table of the menu. With samples, the statistics are recomputed
     * first and the table has one row per sample; with none, the table is
     * empty and the statistics keep their values.
     */
    method MenuTable(round: real -> real, sqrt: real -> real) returns (table: seq<Row>)
      requires Valid()
      modifies this`xMean, this`xStd, this`yMean, this`yStd
      ensures |xMultiplier| > 0 ==>
                xMean == round(Mean(xMultiplier)) && xStd == round(sqrt(PopVariance(xMultiplier))) &&
                yMean == round(Mean(yMultiplier)) && yStd == round(sqrt(PopVariance(yMultiplier)))
      ensures |xMultiplier| == 0 ==> unchanged(this)
      ensures table == Table(xMultiplier, yMultiplier, xMean, yMean)
    {
      table := [];
      if |xMultiplier| > 0 {
        CalculateStatistics(round, sqrt);
        var i := 0;
        while i < |xMultiplier|
          invariant 0 <= i <= |xMultiplier|
          invariant table == Table(xMultiplier[..i], yMultiplier, xMean, yMean)
        {
          table := table + [Row(i, xMultiplier[i], yMultiplier[i], xMultiplier[i] - xMean, yMultiplier[i] - yMean)];
          i := i + 1;
        }
        assert xMultiplier[..i] == xMultiplier;
      }
    }
  }
}
