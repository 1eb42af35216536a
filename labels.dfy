/** Forward-window outcome labels computed per price file by
    Algo.get_technical_indicators: the warm-up trim and the three
    0/1 label columns (5, 30 and 60 days). Prices are exact reals. */
module Labels {

  /** Rows dropped from the head of every series before labelling. */
  const Warmup: nat := 100
  const FiveDays: nat := 5
  const ThirtyDays: nat := 30
  const SixtyDays: nat := 60

  /** One daily bar of a raw price file; indicator columns are not modelled. */
  datatype PriceBar = PriceBar(date: string, open: real, high: real, low: real, close: real, volume: int)

  /** One row of the augmented table: the bar and its three outcome labels. */
  datatype LabeledRow = LabeledRow(bar: PriceBar, fiveDay: int, thirtyDay: int, sixtyDay: int)

  /** A raw per-ticker price file and its labelled counterpart. */
  datatype RawFile = RawFile(stock: string, bars: seq<PriceBar>)
  datatype LabeledFile = LabeledFile(stock: string, rows: seq<LabeledRow>)

  // ---------------------------------------------------------------------
  // Specification

  /** Sum of a window, accumulated from the left as the label loops do. */
  function Sum(w: seq<real>): real
  {
    if w == [] then 0.0 else Sum(w[..|w| - 1]) + w[|w| - 1]
  }

  function Mean(w: seq<real>): real
    requires |w| > 0
  {
    Sum(w) / (|w| as real)
  }

  /** Label over the h closes strictly after row x: 1 iff the window fits
      (x < |c| - h) and its mean is above the close of row x. */
  function ForwardOutcome(c: seq<real>, x: nat, h: nat): (r: int)
    requires x < |c| && h > 0
    ensures r == 0 || r == 1
    ensures r == 1 ==> x + h < |c| && Sum(c[x + 1..x + 1 + h]) > (h as real) * c[x]
  {
    if x + h < |c| && Mean(c[x + 1..x + 1 + h]) > c[x] then 1 else 0
  }

  /** The 5-day label: the window holds the five closes after row x. */
  function FiveDayOutcome(c: seq<real>, x: nat): (r: int)
    requires x < |c|
    ensures r == 0 || r == 1
    ensures |c| - FiveDays <= x ==> r == 0
  {
    ForwardOutcome(c, x, FiveDays)
  }

  /** The 30- and 60-day label: the h-row window STARTS at row y, so it
      includes the close it is compared with; forced to 0 unless y < |c| - h. */
  function WindowOutcome(c: seq<real>, y: nat, h: nat): (r: int)
    requires y < |c| && h > 0
    ensures r == 0 || r == 1
    ensures |c| - h <= y ==> r == 0
  {
    if y + h < |c| && Mean(c[y..y + h]) > c[y] then 1 else 0
  }

  /** The rows that survive the warm-up trim (a slice past the end is empty). */
  function Trim(bars: seq<PriceBar>): (t: seq<PriceBar>)
    ensures |t| == if |bars| <= Warmup then 0 else |bars| - Warmup
    ensures forall k :: 0 <= k < |t| ==> t[k] == bars[Warmup + k]
  {
    if |bars| <= Warmup then [] else bars[Warmup..]
  }

  function Closes(t: seq<PriceBar>): seq<real>
  {
    seq(|t|, k requires 0 <= k < |t| => t[k].close)
  }

  /** The augmented table of one price file. */
  function Labelled(bars: seq<PriceBar>): seq<LabeledRow>
  {
    var t := Trim(bars);
    var c := Closes(t);
    seq(|t|, k requires 0 <= k < |t| =>
      LabeledRow(t[k], FiveDayOutcome(c, k), WindowOutcome(c, k, ThirtyDays), WindowOutcome(c, k, SixtyDays)))
  }

  // ---------------------------------------------------------------------
  // Lemmas about the specification

  lemma {:induction false} SumCons(a: real, w: seq<real>)
    ensures Sum([a] + w) == a + Sum(w)
  {
    if w != [] {
      assert ([a] + w)[..|[a] + w| - 1] == [a] + w[..|w| - 1];
      SumCons(a, w[..|w| - 1]);
    }
  }

  lemma SumOfFive(w: seq<real>)
    requires |w| == 5
    ensures Sum(w) == w[0] + w[1] + w[2] + w[3] + w[4]
  {
    assert w[..4][..3] == w[..3] && w[..3][..2] == w[..2] && w[..2][..1] == w[..1] && w[..1][..0] == [];
    assert Sum(w[..1]) == w[0];
    assert Sum(w[..2]) == w[0] + w[1];
    assert Sum(w[..3]) == w[0] + w[1] + w[2];
  }

  lemma SumSnoc(c: seq<real>, lo: nat, hi: nat)
    requires lo <= hi < |c|
    ensures Sum(c[lo..hi + 1]) == Sum(c[lo..hi]) + c[hi]
  {
    assert c[lo..hi + 1][..hi - lo] == c[lo..hi];
  }

  lemma {:induction false} SumConst(n: nat, v: real)
    ensures Sum(seq(n, _ => v)) == (n as real) * v
  {
    if n > 0 {
      assert seq(n, _ => v)[..n - 1] == seq(n - 1, _ => v);
      SumConst(n - 1, v);
    }
  }

  /** Including the current close in an h-row mean is the same as asking
      whether the mean of the NEXT h - 1 closes is above it: the 30-day
      label is a 29-day forward label (cut off one row early), the 60-day
      label a 59-day one, unlike the 5-day label which looks at 5 rows. */
  lemma WindowIsShorterForwardWindow(c: seq<real>, y: nat, h: nat)
    requires y < |c| && h >= 2
    ensures WindowOutcome(c, y, h) == if y + h < |c| then ForwardOutcome(c, y, h - 1) else 0
  {
    if y + h < |c| {
      var rest := c[y + 1..y + h];
      assert c[y..y + h] == [c[y]] + rest;
      SumCons(c[y], rest);
      var s := Sum(rest);
      var hr := h as real;
      assert Mean(c[y..y + h]) == (c[y] + s) / hr;
      assert Mean(rest) == s / (hr - 1.0);
      calc {
        (c[y] + s) / hr > c[y];
      ==
        c[y] + s > hr * c[y];
      ==
        s > (hr - 1.0) * c[y];
      ==
        s / (hr - 1.0) > c[y];
      }
    }
  }

  /** For every horizon there is a series on which the including window of
      WindowOutcome and the excluding window of ForwardOutcome disagree:
      h flat closes followed by a higher one. */
  lemma IncludingCurrentRowChangesLabel(h: nat)
    requires h > 0
    ensures var c := seq(h, _ => 1.0) + [2.0];
            WindowOutcome(c, 0, h) == 0 && ForwardOutcome(c, 0, h) == 1
  {
    var c := seq(h, _ => 1.0) + [2.0];
    assert c[0..h] == seq(h, _ => 1.0);
    SumConst(h, 1.0);
    assert Mean(c[0..h]) == 1.0;
    var after := c[1..1 + h];
    assert after[..h - 1] == seq(h - 1, _ => 1.0);
    SumConst(h - 1, 1.0);
    assert Sum(after) == (h - 1) as real + 2.0;
    assert Sum(after) > (h as real) * 1.0;
  }

  /** The worked example [10, 12, 13, 11, 9, 20]: the mean of the five
      closes after 10 is 13, so the first 5-day label is 1; the rest fall
      in the forced-zero tail. */
  lemma ToySeriesFiveDayLabels()
    ensures var c := [10.0, 12.0, 13.0, 11.0, 9.0, 20.0];
            FiveDayOutcome(c, 0) == 1 &&
            forall x :: 1 <= x < |c| ==> FiveDayOutcome(c, x) == 0
  {
    var c := [10.0, 12.0, 13.0, 11.0, 9.0, 20.0];
    SumOfFive(c[1..6]);
    assert Mean(c[1..6]) == 13.0;
  }

  /** The shape of the augmented table: one row per row left after the
      trim, each row keeps its bar, every label is 0 or 1, the three
      tails are forced to 0, and each label is decided by the closes of the
      table itself. */
  lemma LabelledShape(bars: seq<PriceBar>)
    ensures var rows := Labelled(bars);
            |rows| == (if |bars| <= Warmup then 0 else |bars| - Warmup) &&
            (forall k :: 0 <= k < |rows| ==> rows[k].bar == bars[Warmup + k]) &&
            (forall k :: 0 <= k < |rows| ==>
               rows[k].fiveDay in {0, 1} && rows[k].thirtyDay in {0, 1} && rows[k].sixtyDay in {0, 1}) &&
            (forall k :: 0 <= k < |rows| && |rows| - FiveDays <= k ==> rows[k].fiveDay == 0) &&
            (forall k :: 0 <= k < |rows| && |rows| - ThirtyDays <= k ==> rows[k].thirtyDay == 0) &&
            (forall k :: 0 <= k < |rows| && |rows| - SixtyDays <= k ==> rows[k].sixtyDay == 0)
  {
  }

  /** A row's 5-day label is 1 exactly when the mean close of the five
      following rows of the table is above its own close, and its 30-day
      label exactly when the mean of the 30 rows starting at it is. */
  lemma LabelMeaning(bars: seq<PriceBar>, k: nat)
    requires k < |Labelled(bars)|
    ensures var rows := Labelled(bars);
            var c := seq(|rows|, j requires 0 <= j < |rows| => rows[j].bar.close);
            (rows[k].fiveDay == 1 <==> k + FiveDays < |rows| && Mean(c[k + 1..k + 1 + FiveDays]) > c[k]) &&
            (rows[k].thirtyDay == 1 <==> k + ThirtyDays < |rows| && Mean(c[k..k + ThirtyDays]) > c[k]) &&
            (rows[k].sixtyDay == 1 <==> k + SixtyDays < |rows| && Mean(c[k..k + SixtyDays]) > c[k])
  {
    var rows := Labelled(bars);
    var c := seq(|rows|, j requires 0 <= j < |rows| => rows[j].bar.close);
    assert c == Closes(Trim(bars));
  }

  // ---------------------------------------------------------------------
  // The label loops

  /** The x loop: one label per row from an explicit five-term sum. */
  method FiveDayObservation(closes: seq<real>) returns (labels: seq<int>)
    ensures |labels| == |closes|
    ensures forall x :: 0 <= x < |labels| ==> labels[x] == FiveDayOutcome(closes, x)
  {
    labels := [];
    var x := 0;
    while x < |closes|
      invariant 0 <= x <= |closes|
      invariant |labels| == x
      invariant forall k :: 0 <= k < x ==> labels[k] == FiveDayOutcome(closes, k)
    {
      if x < |closes| - 5 {
        SumOfFive(closes[x + 1..x + 6]);
        if (closes[x + 1] + closes[x + 2] + closes[x + 3] + closes[x + 4] + closes[x + 5]) / 5.0 > closes[x] {
          labels := labels + [1];
        } else {
          labels := labels + [0];
        }
      } else {
        labels := labels + [0];
      }
      x := x + 1;
    }
  }

  /** The y/y2 (h = 30) and z/z2 (h = 60) loops: a running sum over the h
      closes starting at the current row; every read is at most |closes| - 2. */
  method WindowObservation(closes: seq<real>, h: nat) returns (labels: seq<int>)
    requires h > 0
    ensures |labels| == |closes|
    ensures forall y :: 0 <= y < |labels| ==> labels[y] == WindowOutcome(closes, y, h)
  {
    labels := [];
    var y := 0;
    while y < |closes|
      invariant 0 <= y <= |closes|
      invariant |labels| == y
      invariant forall k :: 0 <= k < y ==> labels[k] == WindowOutcome(closes, k, h)
    {
      if y < |closes| - h {
        var windowSum := 0.0;
        var y2 := 0;
        while y2 < h
          invariant 0 <= y2 <= h
          invariant windowSum == Sum(closes[y..y + y2])
        {
          assert y + y2 <= |closes| - 2;
          SumSnoc(closes, y, y + y2);
          windowSum := windowSum + closes[y + y2];
          y2 := y2 + 1;
        }
        if windowSum / (h as real) > closes[y] {
          labels := labels + [1];
        } else {
          labels := labels + [0];
        }
      } else {
        labels := labels + [0];
      }
      y := y + 1;
    }
  }

  /** One file: trim the warm-up rows, take the close column, run the three
      label loops and attach the columns. */
  method LabelBars(bars: seq<PriceBar>) returns (rows: seq<LabeledRow>)
    ensures rows == Labelled(bars)
  {
    var data := if |bars| <= Warmup then [] else bars[Warmup..];
    var closes := seq(|data|, k requires 0 <= k < |data| => data[k].close);
    var five := FiveDayObservation(closes);
    var thirty := WindowObservation(closes, ThirtyDays);
    var sixty := WindowObservation(closes, SixtyDays);
    rows := seq(|data|, k requires 0 <= k < |data| => LabeledRow(data[k], five[k], thirty[k], sixty[k]));
    assert data == Trim(bars) && closes == Closes(data);
  }

  /** The per-file loop: every raw file becomes a labelled file of the same stock. */
  method GetTechnicalIndicators(files: seq<RawFile>) returns (out: seq<LabeledFile>)
    ensures |out| == |files|
    ensures forall k :: 0 <= k < |files| ==>
              out[k].stock == files[k].stock && out[k].rows == Labelled(files[k].bars)
  {
    out := [];
    for k := 0 to |files|
      invariant |out| == k
      invariant forall j :: 0 <= j < k ==>
                  out[j].stock == files[j].stock && out[j].rows == Labelled(files[j].bars)
    {
      var rows := LabelBars(files[k].bars);
      out := out + [LabeledFile(files[k].stock, rows)];
    }
  }
}
