/**
 * `calculate_metrics` of validation/validate_model.py: the images both
 * labelled and predicted, the confusion matrix filled one image at a time,
 * the per-class precision, recall and F1 read off it, and the mean
 * confidence of the right and of the wrong predictions.
 *
 * Predictions hold season names only (the validation run keeps nothing
 * else), so both label maps are typed by `Season`. The printed reports,
 * among them the accuracy counting undetermined images as errors and the
 * accuracy by confidence threshold, are not modelled.
 */
module ValidateMetrics {
  import opened Wrappers
  import opened ValidateModel

  /** The four classes, as a set. */
  const AllSeasons: set<Season> := {Fall, Spring, Summer, Winter}

  /** Every class is in the set. */
  lemma AllSeasonsComplete()
    ensures forall s: Season :: s in AllSeasons
  {
    forall s: Season
      ensures s in AllSeasons
    {
      assert s == Fall || s == Spring || s == Summer || s == Winter;
    }
  }

  // ---------------------------------------------------------------------
  // The images a count is made of

  /** `set(ground_truth.keys()) & set(predictions.keys())`. */
  function CommonImages(groundTruth: map<string, Season>, predictions: map<string, Season>): (r: set<string>)
    ensures forall img :: img in r <==> img in groundTruth && img in predictions
  {
    groundTruth.Keys * predictions.Keys
  }

  /** The images of `imgs` labelled `t` and predicted `p`. */
  function CellImages(groundTruth: map<string, Season>, predictions: map<string, Season>, imgs: set<string>, t: Season, p: Season): set<string> {
    set img | img in imgs && img in groundTruth && img in predictions && groundTruth[img] == t && predictions[img] == p
  }

  /** The images of `imgs` labelled `t`. */
  function TrueImages(groundTruth: map<string, Season>, imgs: set<string>, t: Season): set<string> {
    set img | img in imgs && img in groundTruth && groundTruth[img] == t
  }

  /** The images of `imgs` predicted `p`. */
  function PredictedImages(predictions: map<string, Season>, imgs: set<string>, p: Season): set<string> {
    set img | img in imgs && img in predictions && predictions[img] == p
  }

  /** The images of `imgs` predicted right. */
  function CorrectImages(groundTruth: map<string, Season>, predictions: map<string, Season>, imgs: set<string>): (r: set<string>)
    ensures r <= imgs
  {
    set img | img in imgs && img in groundTruth && img in predictions && groundTruth[img] == predictions[img]
  }

  // ---------------------------------------------------------------------
  // The confusion matrix

  /** One row of `confusion`: the counts by predicted class. */
  datatype Row = Row(fall: nat, spring: nat, summer: nat, winter: nat)

  /**
   * `confusion`, the dictionary with every class as key and, under each,
   * every class as key: the rows by labelled class.
   */
  datatype Matrix = Matrix(fall: Row, spring: Row, summer: Row, winter: Row)

  function RowCell(r: Row, p: Season): nat {
    match p
    case Fall => r.fall
    case Spring => r.spring
    case Summer => r.summer
    case Winter => r.winter
  }

  function RowOf(m: Matrix, t: Season): Row {
    match t
    case Fall => m.fall
    case Spring => m.spring
    case Summer => m.summer
    case Winter => m.winter
  }

  /** `confusion[t][p]`. */
  function Cell(m: Matrix, t: Season, p: Season): nat {
    RowCell(RowOf(m, t), p)
  }

  /** The matrix of zeros the source starts from. */
  const ZeroMatrix: Matrix := Matrix(Row(0, 0, 0, 0), Row(0, 0, 0, 0), Row(0, 0, 0, 0), Row(0, 0, 0, 0))

  function RowIncremented(r: Row, p: Season): Row {
    match p
    case Fall => r.(fall := r.fall + 1)
    case Spring => r.(spring := r.spring + 1)
    case Summer => r.(summer := r.summer + 1)
    case Winter => r.(winter := r.winter + 1)
  }

  /** `confusion[t][p] += 1`. */
  function Incremented(m: Matrix, t: Season, p: Season): Matrix {
    match t
    case Fall => m.(fall := RowIncremented(m.fall, p))
    case Spring => m.(spring := RowIncremented(m.spring, p))
    case Summer => m.(summer := RowIncremented(m.summer, p))
    case Winter => m.(winter := RowIncremented(m.winter, p))
  }

  /** An increment adds one to its own cell and leaves the fifteen others alone. */
  lemma IncrementedCell(m: Matrix, t: Season, p: Season, t': Season, p': Season)
    ensures Cell(Incremented(m, t, p), t', p') == Cell(m, t', p') + if t' == t && p' == p then 1 else 0
  {
  }

  /** The four counts of a row added up. */
  function RowTotal(r: Row): nat {
    r.fall + r.spring + r.summer + r.winter
  }

  /** The images labelled `t`: the sum of row `t`. */
  function RowSum(m: Matrix, t: Season): nat {
    var r := RowOf(m, t);
    r.fall + r.spring + r.summer + r.winter
  }

  /** The images predicted `p`: the sum of column `p`. */
  function ColumnSum(m: Matrix, p: Season): nat {
    RowCell(m.fall, p) + RowCell(m.spring, p) + RowCell(m.summer, p) + RowCell(m.winter, p)
  }

  /** All the images counted. */
  function Total(m: Matrix): nat {
    RowTotal(m.fall) + RowTotal(m.spring) + RowTotal(m.summer) + RowTotal(m.winter)
  }

  /** The images predicted right: the diagonal. */
  function Diagonal(m: Matrix): nat {
    m.fall.fall + m.spring.spring + m.summer.summer + m.winter.winter
  }

  /** An increment adds one to its own row and leaves the others alone. */
  lemma IncrementedRow(m: Matrix, t: Season, p: Season, t': Season)
    ensures RowSum(Incremented(m, t, p), t') == RowSum(m, t') + if t' == t then 1 else 0
  {
    IncrementedCell(m, t, p, t', Fall);
    IncrementedCell(m, t, p, t', Spring);
    IncrementedCell(m, t, p, t', Summer);
    IncrementedCell(m, t, p, t', Winter);
  }

  /** An increment adds one to its own column and leaves the others alone. */
  lemma IncrementedColumn(m: Matrix, t: Season, p: Season, p': Season)
    ensures ColumnSum(Incremented(m, t, p), p') == ColumnSum(m, p') + if p' == p then 1 else 0
  {
    IncrementedCell(m, t, p, Fall, p');
    IncrementedCell(m, t, p, Spring, p');
    IncrementedCell(m, t, p, Summer, p');
    IncrementedCell(m, t, p, Winter, p');
  }

  /** An increment adds one to the total, and to the diagonal when it lies on it. */
  lemma IncrementedTotals(m: Matrix, t: Season, p: Season)
    ensures Total(Incremented(m, t, p)) == Total(m) + 1
    ensures Diagonal(Incremented(m, t, p)) == Diagonal(m) + if t == p then 1 else 0
  {
    IncrementedRow(m, t, p, Fall);
    IncrementedRow(m, t, p, Spring);
    IncrementedRow(m, t, p, Summer);
    IncrementedRow(m, t, p, Winter);
    IncrementedCell(m, t, p, Fall, Fall);
    IncrementedCell(m, t, p, Spring, Spring);
    IncrementedCell(m, t, p, Summer, Summer);
    IncrementedCell(m, t, p, Winter, Winter);
  }

  /** The counts of one labelled class. */
  function CountRow(groundTruth: map<string, Season>, predictions: map<string, Season>, imgs: set<string>, t: Season): Row {
    Row(|CellImages(groundTruth, predictions, imgs, t, Fall)|, |CellImages(groundTruth, predictions, imgs, t, Spring)|,
        |CellImages(groundTruth, predictions, imgs, t, Summer)|, |CellImages(groundTruth, predictions, imgs, t, Winter)|)
  }

  /** The confusion matrix of a set of images: each cell the number of its images. */
  function ConfusionOf(groundTruth: map<string, Season>, predictions: map<string, Season>, imgs: set<string>): Matrix {
    Matrix(CountRow(groundTruth, predictions, imgs, Fall), CountRow(groundTruth, predictions, imgs, Spring),
           CountRow(groundTruth, predictions, imgs, Summer), CountRow(groundTruth, predictions, imgs, Winter))
  }

  /** Each cell counts the images labelled with its row and predicted as its column. */
  lemma ConfusionCell(groundTruth: map<string, Season>, predictions: map<string, Season>, imgs: set<string>, t: Season, p: Season)
    ensures Cell(ConfusionOf(groundTruth, predictions, imgs), t, p) == |CellImages(groundTruth, predictions, imgs, t, p)|
  {
  }

  /** One more image adds one to the count of its own cell. */
  lemma CellImagesStep(groundTruth: map<string, Season>, predictions: map<string, Season>, done: set<string>, img: string,
                       t: Season, p: Season)
    requires img !in done && img in groundTruth && img in predictions
    ensures |CellImages(groundTruth, predictions, done + {img}, t, p)|
         == |CellImages(groundTruth, predictions, done, t, p)| + if groundTruth[img] == t && predictions[img] == p then 1 else 0
  {
    var before := CellImages(groundTruth, predictions, done, t, p);
    if groundTruth[img] == t && predictions[img] == p {
      assert CellImages(groundTruth, predictions, done + {img}, t, p) == before + {img};
    } else {
      assert CellImages(groundTruth, predictions, done + {img}, t, p) == before;
    }
  }

  /** Counting one more image increments its cell of the matrix. */
  lemma ConfusionStep(groundTruth: map<string, Season>, predictions: map<string, Season>, done: set<string>, img: string)
    requires img !in done && img in groundTruth && img in predictions
    ensures Incremented(ConfusionOf(groundTruth, predictions, done), groundTruth[img], predictions[img])
         == ConfusionOf(groundTruth, predictions, done + {img})
  {
    var before := ConfusionOf(groundTruth, predictions, done);
    var a := Incremented(before, groundTruth[img], predictions[img]);
    var b := ConfusionOf(groundTruth, predictions, done + {img});
    forall t, p
      ensures Cell(a, t, p) == Cell(b, t, p)
    {
      IncrementedCell(before, groundTruth[img], predictions[img], t, p);
      ConfusionCell(groundTruth, predictions, done, t, p);
      ConfusionCell(groundTruth, predictions, done + {img}, t, p);
      CellImagesStep(groundTruth, predictions, done, img, t, p);
    }
    SameCells(a, b);
  }

  /** Matrices with the same cells are the same. */
  lemma SameCells(a: Matrix, b: Matrix)
    requires forall t, p :: Cell(a, t, p) == Cell(b, t, p)
    ensures a == b
  {
    assert Cell(a, Fall, Fall) == Cell(b, Fall, Fall) && Cell(a, Fall, Spring) == Cell(b, Fall, Spring);
    assert Cell(a, Fall, Summer) == Cell(b, Fall, Summer) && Cell(a, Fall, Winter) == Cell(b, Fall, Winter);
    assert Cell(a, Spring, Fall) == Cell(b, Spring, Fall) && Cell(a, Spring, Spring) == Cell(b, Spring, Spring);
    assert Cell(a, Spring, Summer) == Cell(b, Spring, Summer) && Cell(a, Spring, Winter) == Cell(b, Spring, Winter);
    assert Cell(a, Summer, Fall) == Cell(b, Summer, Fall) && Cell(a, Summer, Spring) == Cell(b, Summer, Spring);
    assert Cell(a, Summer, Summer) == Cell(b, Summer, Summer) && Cell(a, Summer, Winter) == Cell(b, Summer, Winter);
    assert Cell(a, Winter, Fall) == Cell(b, Winter, Fall) && Cell(a, Winter, Spring) == Cell(b, Winter, Spring);
    assert Cell(a, Winter, Summer) == Cell(b, Winter, Summer) && Cell(a, Winter, Winter) == Cell(b, Winter, Winter);
  }

  /** The matrix counts the images of `imgs`: each row, each column, the total and the diagonal. */
  predicate Counts(m: Matrix, groundTruth: map<string, Season>, predictions: map<string, Season>, imgs: set<string>) {
    && (forall t :: RowSum(m, t) == |TrueImages(groundTruth, imgs, t)|)
    && (forall p :: ColumnSum(m, p) == |PredictedImages(predictions, imgs, p)|)
    && Total(m) == |imgs|
    && Diagonal(m) == |CorrectImages(groundTruth, predictions, imgs)|
  }

  /** Counting one more image is incrementing its cell. */
  lemma CountsStep(m: Matrix, groundTruth: map<string, Season>, predictions: map<string, Season>, done: set<string>, img: string)
    requires Counts(m, groundTruth, predictions, done)
    requires img !in done && img in groundTruth && img in predictions
    ensures Counts(Incremented(m, groundTruth[img], predictions[img]), groundTruth, predictions, done + {img})
  {
    var t0, p0 := groundTruth[img], predictions[img];
    var m' := Incremented(m, t0, p0);
    IncrementedTotals(m, t0, p0);
    forall t
      ensures RowSum(m', t) == |TrueImages(groundTruth, done + {img}, t)|
    {
      IncrementedRow(m, t0, p0, t);
      var before := TrueImages(groundTruth, done, t);
      if t0 == t {
        assert TrueImages(groundTruth, done + {img}, t) == before + {img};
      } else {
        assert TrueImages(groundTruth, done + {img}, t) == before;
      }
    }
    forall p
      ensures ColumnSum(m', p) == |PredictedImages(predictions, done + {img}, p)|
    {
      IncrementedColumn(m, t0, p0, p);
      var before := PredictedImages(predictions, done, p);
      if p0 == p {
        assert PredictedImages(predictions, done + {img}, p) == before + {img};
      } else {
        assert PredictedImages(predictions, done + {img}, p) == before;
      }
    }
    var right := CorrectImages(groundTruth, predictions, done);
    if t0 == p0 {
      assert CorrectImages(groundTruth, predictions, done + {img}) == right + {img};
    } else {
      assert CorrectImages(groundTruth, predictions, done + {img}) == right;
    }
  }

  /**
   * The matrix of a set of images counts them: each image lies in exactly
   * one cell, so the rows count the labels, the columns the predictions,
   * the whole matrix the images and the diagonal the right predictions.
   */
  lemma {:induction false} ConfusionCounts(groundTruth: map<string, Season>, predictions: map<string, Season>, imgs: set<string>)
    requires imgs <= CommonImages(groundTruth, predictions)
    ensures Counts(ConfusionOf(groundTruth, predictions, imgs), groundTruth, predictions, imgs)
    decreases imgs
  {
    if imgs == {} {
      EmptyCounts(groundTruth, predictions, imgs);
    } else {
      var img :| img in imgs;
      var rest := imgs - {img};
      ConfusionCounts(groundTruth, predictions, rest);
      CountsGrow(ConfusionOf(groundTruth, predictions, rest), groundTruth, predictions, imgs, img);
      ConfusionGrow(groundTruth, predictions, imgs, img);
    }
  }

  /** A matrix that counts all images but one, incremented at that image's cell, counts them all. */
  lemma CountsGrow(m: Matrix, groundTruth: map<string, Season>, predictions: map<string, Season>, imgs: set<string>, img: string)
    requires img in imgs && img in groundTruth && img in predictions
    requires Counts(m, groundTruth, predictions, imgs - {img})
    ensures Counts(Incremented(m, groundTruth[img], predictions[img]), groundTruth, predictions, imgs)
  {
    CountsStep(m, groundTruth, predictions, imgs - {img}, img);
    assert imgs - {img} + {img} == imgs;
  }

  /** The matrix of a set of images is that of all but one, incremented at that one's cell. */
  lemma ConfusionGrow(groundTruth: map<string, Season>, predictions: map<string, Season>, imgs: set<string>, img: string)
    requires img in imgs && img in groundTruth && img in predictions
    ensures Incremented(ConfusionOf(groundTruth, predictions, imgs - {img}), groundTruth[img], predictions[img])
         == ConfusionOf(groundTruth, predictions, imgs)
  {
    ConfusionStep(groundTruth, predictions, imgs - {img}, img);
    assert imgs - {img} + {img} == imgs;
  }

  /** No image: the matrix of zeros. */
  lemma NothingInConfusion(groundTruth: map<string, Season>, predictions: map<string, Season>)
    ensures ConfusionOf(groundTruth, predictions, {}) == ZeroMatrix
  {
    var empty := ConfusionOf(groundTruth, predictions, {});
    forall t, p
      ensures Cell(empty, t, p) == Cell(ZeroMatrix, t, p)
    {
      ConfusionCell(groundTruth, predictions, {}, t, p);
      assert CellImages(groundTruth, predictions, {}, t, p) == {};
    }
    SameCells(empty, ZeroMatrix);
  }

  /** No image is labelled, predicted or right. */
  lemma NoImages(groundTruth: map<string, Season>, predictions: map<string, Season>, imgs: set<string>, t: Season)
    requires imgs == {}
    ensures |TrueImages(groundTruth, imgs, t)| == 0 && |PredictedImages(predictions, imgs, t)| == 0
    ensures |CorrectImages(groundTruth, predictions, imgs)| == 0
  {
    assert TrueImages(groundTruth, imgs, t) == {} && PredictedImages(predictions, imgs, t) == {};
  }

  /** The matrix of zeros sums to zero along every row, every column and the diagonal. */
  lemma ZeroSums()
    ensures forall t :: RowSum(ZeroMatrix, t) == 0 && ColumnSum(ZeroMatrix, t) == 0
    ensures Total(ZeroMatrix) == 0 && Diagonal(ZeroMatrix) == 0
  {
  }

  /** A matrix counts the images when its rows, columns, total and diagonal do. */
  lemma CountsFrom(m: Matrix, groundTruth: map<string, Season>, predictions: map<string, Season>, imgs: set<string>)
    requires forall t :: RowSum(m, t) == |TrueImages(groundTruth, imgs, t)|
    requires forall p :: ColumnSum(m, p) == |PredictedImages(predictions, imgs, p)|
    requires Total(m) == |imgs| && Diagonal(m) == |CorrectImages(groundTruth, predictions, imgs)|
    ensures Counts(m, groundTruth, predictions, imgs)
  {
  }

  /** The rows of the matrix of no image count no label. */
  lemma NoRowCounted(groundTruth: map<string, Season>, predictions: map<string, Season>, imgs: set<string>)
    requires imgs == {}
    ensures forall t :: RowSum(ConfusionOf(groundTruth, predictions, imgs), t) == |TrueImages(groundTruth, imgs, t)|
  {
    NoLabels(groundTruth, predictions, imgs);
    NothingInConfusion(groundTruth, predictions);
    ZeroSums();
  }

  /** The columns of the matrix of no image count no prediction. */
  lemma NoColumnCounted(groundTruth: map<string, Season>, predictions: map<string, Season>, imgs: set<string>)
    requires imgs == {}
    ensures forall p :: ColumnSum(ConfusionOf(groundTruth, predictions, imgs), p) == |PredictedImages(predictions, imgs, p)|
  {
    NoLabels(groundTruth, predictions, imgs);
    NothingInConfusion(groundTruth, predictions);
    ZeroSums();
  }

  /** The total and the diagonal of the matrix of no image count no image. */
  lemma NoTotalCounted(groundTruth: map<string, Season>, predictions: map<string, Season>, imgs: set<string>)
    requires imgs == {}
    ensures Total(ConfusionOf(groundTruth, predictions, imgs)) == |imgs|
    ensures Diagonal(ConfusionOf(groundTruth, predictions, imgs)) == |CorrectImages(groundTruth, predictions, imgs)|
  {
    NoImages(groundTruth, predictions, imgs, Fall);
    NothingInConfusion(groundTruth, predictions);
    ZeroSums();
  }

  /** The matrix of no image counts no image. */
  lemma EmptyCounts(groundTruth: map<string, Season>, predictions: map<string, Season>, imgs: set<string>)
    requires imgs == {}
    ensures Counts(ConfusionOf(groundTruth, predictions, imgs), groundTruth, predictions, imgs)
  {
    NoRowCounted(groundTruth, predictions, imgs);
    NoColumnCounted(groundTruth, predictions, imgs);
    NoTotalCounted(groundTruth, predictions, imgs);
    CountsFrom(ConfusionOf(groundTruth, predictions, imgs), groundTruth, predictions, imgs);
  }

  /** No image has a label or a prediction. */
  lemma NoLabels(groundTruth: map<string, Season>, predictions: map<string, Season>, imgs: set<string>)
    requires imgs == {}
    ensures forall t :: |TrueImages(groundTruth, imgs, t)| == 0 && |PredictedImages(predictions, imgs, t)| == 0
  {
    forall t
      ensures |TrueImages(groundTruth, imgs, t)| == 0 && |PredictedImages(predictions, imgs, t)| == 0
    {
      NoImages(groundTruth, predictions, imgs, t);
    }
  }

  /** The loop over `common_images` that fills the confusion matrix, in any order. */
  method BuildConfusion(groundTruth: map<string, Season>, predictions: map<string, Season>, common: set<string>)
    returns (confusion: Matrix)
    requires common <= CommonImages(groundTruth, predictions)
    ensures confusion == ConfusionOf(groundTruth, predictions, common)
  {
    confusion := ZeroMatrix;
    NothingInConfusion(groundTruth, predictions);
    var remaining := common;
    ghost var done: set<string> := {};
    while remaining != {}
      invariant remaining <= common && done == common - remaining
      invariant confusion == ConfusionOf(groundTruth, predictions, done)
      decreases remaining
    {
      var img :| img in remaining;
      ConfusionStep(groundTruth, predictions, done, img);
      confusion := Incremented(confusion, groundTruth[img], predictions[img]);
      remaining := remaining - {img};
      done := done + {img};
    }
    assert done == common;
  }

  // ---------------------------------------------------------------------
  // Per-class metrics

  /** The entry `class_metrics[season]`. */
  datatype ClassMetric = ClassMetric(precision: real, recall: real, f1: real, support: nat)

  /** `a / b if b > 0 else 0`. */
  function Ratio(a: nat, b: nat): (r: real)
    ensures b == 0 ==> r == 0.0
    ensures a <= b ==> 0.0 <= r <= 1.0
  {
    if b > 0 then a as real / b as real else 0.0
  }

  /** `sum(confusion[other][s] for other in seasons if other != s)`. */
  function OthersInColumn(m: Matrix, s: Season, others: seq<Season>): nat
  {
    if others == [] then 0
    else (if others[0] != s then Cell(m, others[0], s) else 0) + OthersInColumn(m, s, others[1..])
  }

  /** `sum(confusion[s][other] for other in seasons if other != s)`. */
  function OthersInRow(m: Matrix, s: Season, others: seq<Season>): nat
  {
    if others == [] then 0
    else (if others[0] != s then Cell(m, s, others[0]) else 0) + OthersInRow(m, s, others[1..])
  }

  /** The false positives written out: the other three cells of the column. */
  lemma {:induction false} OthersInColumnUnfolded(m: Matrix, s: Season)
    ensures OthersInColumn(m, s, Seasons)
         == (if s != Fall then Cell(m, Fall, s) else 0) + (if s != Spring then Cell(m, Spring, s) else 0)
          + (if s != Summer then Cell(m, Summer, s) else 0) + (if s != Winter then Cell(m, Winter, s) else 0)
  {
    assert [Winter][1..] == [] && [Summer, Winter][1..] == [Winter];
    assert [Spring, Summer, Winter][1..] == [Summer, Winter] && Seasons[1..] == [Spring, Summer, Winter];
    assert OthersInColumn(m, s, []) == 0;
    var w := OthersInColumn(m, s, [Winter]);
    assert [Winter][0] == Winter;
    assert w == if s != Winter then Cell(m, Winter, s) else 0;
    var sw := OthersInColumn(m, s, [Summer, Winter]);
    assert sw == (if s != Summer then Cell(m, Summer, s) else 0) + w;
    var ssw := OthersInColumn(m, s, [Spring, Summer, Winter]);
    assert ssw == (if s != Spring then Cell(m, Spring, s) else 0) + sw;
  }

  /** The false negatives written out: the other three cells of the row. */
  lemma {:induction false} OthersInRowUnfolded(m: Matrix, s: Season)
    ensures OthersInRow(m, s, Seasons)
         == (if s != Fall then Cell(m, s, Fall) else 0) + (if s != Spring then Cell(m, s, Spring) else 0)
          + (if s != Summer then Cell(m, s, Summer) else 0) + (if s != Winter then Cell(m, s, Winter) else 0)
  {
    assert [Winter][1..] == [] && [Summer, Winter][1..] == [Winter];
    assert [Spring, Summer, Winter][1..] == [Summer, Winter] && Seasons[1..] == [Spring, Summer, Winter];
    assert OthersInRow(m, s, []) == 0;
    var w := OthersInRow(m, s, [Winter]);
    assert [Winter][0] == Winter;
    assert w == if s != Winter then Cell(m, s, Winter) else 0;
    var sw := OthersInRow(m, s, [Summer, Winter]);
    assert sw == (if s != Summer then Cell(m, s, Summer) else 0) + w;
    var ssw := OthersInRow(m, s, [Spring, Summer, Winter]);
    assert ssw == (if s != Spring then Cell(m, s, Spring) else 0) + sw;
  }

  /** The true positives with the false positives make the column. */
  lemma OthersInColumnComplete(m: Matrix, s: Season)
    ensures Cell(m, s, s) + OthersInColumn(m, s, Seasons) == ColumnSum(m, s)
  {
    OthersInColumnUnfolded(m, s);
  }

  /** The true positives with the false negatives make the row. */
  lemma OthersInRowComplete(m: Matrix, s: Season)
    ensures Cell(m, s, s) + OthersInRow(m, s, Seasons) == RowSum(m, s)
  {
    OthersInRowUnfolded(m, s);
  }

  /** The metrics the source computes for one class from the matrix. */
  function ClassMetricOf(m: Matrix, s: Season): ClassMetric
  {
    var tp := Cell(m, s, s);
    var fp := OthersInColumn(m, s, Seasons);
    var fn := OthersInRow(m, s, Seasons);
    var precision := Ratio(tp, tp + fp);
    var recall := Ratio(tp, tp + fn);
    var f1 := if precision + recall > 0.0 then 2.0 * (precision * recall) / (precision + recall) else 0.0;
    ClassMetric(precision, recall, f1, tp + fn)
  }

  /**
   * Read against the images: the support is the number of images labelled
   * with the class, the precision is the share of right ones among those
   * predicted as the class and the recall among those labelled with it,
   * each 0 when nothing is predicted, or labelled, as the class.
   */
  lemma ClassMetricMeaning(groundTruth: map<string, Season>, predictions: map<string, Season>, imgs: set<string>, s: Season)
    requires imgs <= CommonImages(groundTruth, predictions)
    ensures ClassMetricOf(ConfusionOf(groundTruth, predictions, imgs), s).support == |TrueImages(groundTruth, imgs, s)|
    ensures ClassMetricOf(ConfusionOf(groundTruth, predictions, imgs), s).precision ==
      Ratio(|CellImages(groundTruth, predictions, imgs, s, s)|, |PredictedImages(predictions, imgs, s)|)
    ensures ClassMetricOf(ConfusionOf(groundTruth, predictions, imgs), s).recall ==
      Ratio(|CellImages(groundTruth, predictions, imgs, s, s)|, |TrueImages(groundTruth, imgs, s)|)
  {
    var m := ConfusionOf(groundTruth, predictions, imgs);
    ConfusionCounts(groundTruth, predictions, imgs);
    ConfusionCell(groundTruth, predictions, imgs, s, s);
    OthersInColumnComplete(m, s);
    OthersInRowComplete(m, s);
  }

  /**
   * Precision and recall are fractions, 0 when their denominator is; F1
   * is positive exactly when the class has a true positive.
   */
  lemma ClassMetricBounds(m: Matrix, s: Season)
    ensures var c := ClassMetricOf(m, s);
      && 0.0 <= c.precision <= 1.0 && 0.0 <= c.recall <= 1.0
      && (Cell(m, s, s) + OthersInColumn(m, s, Seasons) == 0 ==> c.precision == 0.0)
      && (Cell(m, s, s) + OthersInRow(m, s, Seasons) == 0 ==> c.recall == 0.0)
      && (c.f1 > 0.0 <==> Cell(m, s, s) > 0)
      && (c.f1 == 0.0 <==> Cell(m, s, s) == 0)
  {
    var c := ClassMetricOf(m, s);
    var tp := Cell(m, s, s);
    if tp > 0 {
      PositiveRatio(tp, tp + OthersInColumn(m, s, Seasons));
      PositiveRatio(tp, tp + OthersInRow(m, s, Seasons));
      PositiveHarmonic(c.precision, c.recall);
    } else {
      assert c.precision == 0.0 && c.recall == 0.0;
    }
  }

  lemma PositiveRatio(a: nat, b: nat)
    requires 0 < a <= b
    ensures Ratio(a, b) > 0.0
  {
  }

  /** Twice the product over the sum of two positive numbers is positive. */
  lemma PositiveHarmonic(x: real, y: real)
    requires x > 0.0 && y > 0.0
    ensures 2.0 * (x * y) / (x + y) > 0.0
  {
    assert x * y > 0.0;
  }

  /** The loop over the four classes that fills `class_metrics`. */
  method BuildClassMetrics(confusion: Matrix) returns (classMetrics: map<Season, ClassMetric>)
    ensures classMetrics.Keys == AllSeasons
    ensures forall s :: s in classMetrics && classMetrics[s] == ClassMetricOf(confusion, s)
  {
    classMetrics := map[];
    var k := 0;
    while k < |Seasons|
      invariant 0 <= k <= |Seasons|
      invariant classMetrics.Keys == set j | 0 <= j < k :: Seasons[j]
      invariant forall s :: s in classMetrics ==> classMetrics[s] == ClassMetricOf(confusion, s)
    {
      var season := Seasons[k];
      classMetrics := classMetrics[season := ClassMetricOf(confusion, season)];
      k := k + 1;
    }
    forall s
      ensures s in classMetrics
    {
      assert s == Seasons[SeasonIndex(s)];
    }
    AllSeasonsComplete();
  }

  /** Where a class stands in the list of classes. */
  function SeasonIndex(s: Season): (i: nat)
    ensures i < |Seasons| && Seasons[i] == s
  {
    match s
    case Fall => 0
    case Spring => 1
    case Summer => 2
    case Winter => 3
  }

  // ---------------------------------------------------------------------
  // Mean confidences

  /** The confidences of the images added up. */
  ghost function ConfidenceSum(confidences: map<string, real>, imgs: set<string>): real
    requires imgs <= confidences.Keys
    decreases imgs
  {
    if imgs == {} then 0.0
    else
      var img :| img in imgs;
      confidences[img] + ConfidenceSum(confidences, imgs - {img})
  }

  /** Adding an image to the summed ones adds its confidence. */
  lemma ConfidenceSumAdd(confidences: map<string, real>, done: set<string>, img: string)
    requires done <= confidences.Keys && img in confidences && img !in done
    ensures ConfidenceSum(confidences, done + {img}) == ConfidenceSum(confidences, done) + confidences[img]
  {
    ConfidenceSumAny(confidences, done + {img}, img);
    assert done + {img} - {img} == done;
  }

  /** The sum does not depend on which image is taken first. */
  lemma {:induction false} ConfidenceSumAny(confidences: map<string, real>, imgs: set<string>, x: string)
    requires imgs <= confidences.Keys && x in imgs
    ensures ConfidenceSum(confidences, imgs) == confidences[x] + ConfidenceSum(confidences, imgs - {x})
    decreases imgs
  {
    var img :| img in imgs && ConfidenceSum(confidences, imgs) == confidences[img] + ConfidenceSum(confidences, imgs - {img});
    if img != x {
      ConfidenceSumAny(confidences, imgs - {img}, x);
      ConfidenceSumAny(confidences, imgs - {x}, img);
      assert imgs - {img} - {x} == imgs - {x} - {img};
    }
  }

  /** `np.mean(values) if values else 0`. */
  ghost function MeanConfidence(confidences: map<string, real>, imgs: set<string>): real
    requires imgs <= confidences.Keys
  {
    if imgs == {} then 0.0 else ConfidenceSum(confidences, imgs) / |imgs| as real
  }

  /** With every confidence between 0 and 1, their sum lies between 0 and their number. */
  lemma {:induction false} ConfidenceSumBounds(confidences: map<string, real>, imgs: set<string>)
    requires imgs <= confidences.Keys
    requires forall img :: img in imgs ==> 0.0 <= confidences[img] <= 1.0
    ensures 0.0 <= ConfidenceSum(confidences, imgs) <= |imgs| as real
    decreases imgs
  {
    if imgs != {} {
      var img :| img in imgs;
      ConfidenceSumAny(confidences, imgs, img);
      ConfidenceSumBounds(confidences, imgs - {img});
      assert |imgs - {img}| == |imgs| - 1;
    }
  }

  /** A mean of confidences between 0 and 1 lies between 0 and 1. */
  lemma MeanConfidenceBounds(confidences: map<string, real>, imgs: set<string>)
    requires imgs <= confidences.Keys
    requires forall img :: img in imgs ==> 0.0 <= confidences[img] <= 1.0
    ensures 0.0 <= MeanConfidence(confidences, imgs) <= 1.0
  {
    if imgs != {} {
      ConfidenceSumBounds(confidences, imgs);
      FractionBounds(ConfidenceSum(confidences, imgs), |imgs| as real);
    }
  }

  lemma FractionBounds(a: real, b: real)
    requires 0.0 <= a <= b && b > 0.0
    ensures 0.0 <= a / b <= 1.0
  {
    assert a / b * b == a;
  }

  /**
   * The two list comprehensions over `common_images` and their means: the
   * confidences of the right predictions and of the wrong ones.
   */
  method AverageConfidences(groundTruth: map<string, Season>, predictions: map<string, Season>,
                            confidences: map<string, real>, common: set<string>)
    returns (avgCorrect: real, avgIncorrect: real)
    requires common <= CommonImages(groundTruth, predictions) && common <= confidences.Keys
    ensures avgCorrect == MeanConfidence(confidences, CorrectImages(groundTruth, predictions, common))
    ensures avgIncorrect == MeanConfidence(confidences, common - CorrectImages(groundTruth, predictions, common))
  {
    var correct := CorrectImages(groundTruth, predictions, common);
    avgCorrect := Mean(confidences, correct);
    avgIncorrect := Mean(confidences, common - correct);
  }

  /** The mean of the confidences of the images; 0 for no image. */
  method Mean(confidences: map<string, real>, imgs: set<string>) returns (mean: real)
    requires imgs <= confidences.Keys
    ensures mean == MeanConfidence(confidences, imgs)
  {
    var sum, n := SumConfidences(confidences, imgs);
    mean := if n > 0 then sum / n as real else 0.0;
  }

  /** The sum of the confidences of the images and their number, one image at a time. */
  method SumConfidences(confidences: map<string, real>, imgs: set<string>) returns (sum: real, n: nat)
    requires imgs <= confidences.Keys
    ensures sum == ConfidenceSum(confidences, imgs) && n == |imgs|
  {
    sum, n := 0.0, 0;
    var remaining := imgs;
    ghost var done: set<string> := {};
    while remaining != {}
      invariant done !! remaining && done + remaining == imgs
      invariant n == |done| && sum == ConfidenceSum(confidences, done)
      decreases remaining
    {
      var img :| img in remaining;
      ConfidenceSumAdd(confidences, done, img);
      sum := sum + confidences[img];
      n := n + 1;
      remaining := remaining - {img};
      done := done + {img};
    }
    assert done + {} == done;
  }

  // ---------------------------------------------------------------------
  // The record returned

  /** The dictionary `calculate_metrics` returns; an absent matrix is the empty dictionary. */
  datatype Metrics = Metrics(
    overallAccuracy: real,
    totalPredictions: nat,
    correctPredictions: nat,
    classMetrics: map<Season, ClassMetric>,
    confusionMatrix: Option<Matrix>,
    avgCorrectConfidence: real,
    avgIncorrectConfidence: real,
    undeterminedCount: nat)

  /** The record returned when no image is both labelled and predicted. */
  function EmptyMetrics(undeterminedCount: nat): (r: Metrics)
    ensures r.totalPredictions == 0 && r.correctPredictions == 0 && r.overallAccuracy == 0.0
    ensures r.classMetrics == map[] && r.confusionMatrix == None
    ensures r.avgCorrectConfidence == 0.0 && r.avgIncorrectConfidence == 0.0
    ensures r.undeterminedCount == undeterminedCount
  {
    Metrics(0.0, 0, 0, map[], None, 0.0, 0.0, undeterminedCount)
  }

  /**
   * The record for a non-empty intersection: the number of images, of the
   * right ones and their share, the confusion matrix counting the images,
   * the per-class metrics read off it, the two mean confidences and the
   * number of undetermined images.
   */
  ghost predicate Describes(r: Metrics, groundTruth: map<string, Season>, predictions: map<string, Season>,
                            confidences: map<string, real>, undeterminedCount: nat) {
    var common := CommonImages(groundTruth, predictions);
    && common <= confidences.Keys
    && r.totalPredictions == |common| > 0
    && r.correctPredictions == |CorrectImages(groundTruth, predictions, common)|
    && r.overallAccuracy == r.correctPredictions as real / r.totalPredictions as real
    && 0.0 <= r.overallAccuracy <= 1.0
    && r.confusionMatrix == Some(ConfusionOf(groundTruth, predictions, common))
    && Counts(r.confusionMatrix.value, groundTruth, predictions, common)
    && r.classMetrics.Keys == AllSeasons
    && (forall s :: s in r.classMetrics && r.classMetrics[s] == ClassMetricOf(r.confusionMatrix.value, s))
    && r.avgCorrectConfidence == MeanConfidence(confidences, CorrectImages(groundTruth, predictions, common))
    && r.avgIncorrectConfidence == MeanConfidence(confidences, common - CorrectImages(groundTruth, predictions, common))
    && r.undeterminedCount == undeterminedCount
  }

  /**
   * `calculate_metrics` with the accuracy on the classified images
   * returned as `overall_accuracy`. A common image without a confidence
   * fails with KeyError, as the comprehension indexing `confidences` does.
   */
  method CalculateMetrics(groundTruth: map<string, Season>, predictions: map<string, Season>,
                          confidences: map<string, real>, undeterminedCount: nat)
    returns (r: Result<Metrics, string>)
    ensures var common := CommonImages(groundTruth, predictions);
      && (common == {} ==> r == Success(EmptyMetrics(undeterminedCount)))
      && (common != {} && !(common <= confidences.Keys) ==> r == Failure("KeyError"))
      && (common != {} && common <= confidences.Keys ==>
            r.Success? && Describes(r.value, groundTruth, predictions, confidences, undeterminedCount))
  {
    var common := groundTruth.Keys * predictions.Keys;
    if common == {} {
      return Success(EmptyMetrics(undeterminedCount));
    }
    var correct := |CorrectImages(groundTruth, predictions, common)|;
    var accuracyOnClassified := correct as real / |common| as real;
    var confusion := BuildConfusion(groundTruth, predictions, common);
    ConfusionCounts(groundTruth, predictions, common);
    var classMetrics := BuildClassMetrics(confusion);
    if !(common <= confidences.Keys) {
      return Failure("KeyError");
    }
    var avgCorrect, avgIncorrect := AverageConfidences(groundTruth, predictions, confidences, common);
    FractionBounds(correct as real, |common| as real);
    r := Success(Metrics(accuracyOnClassified, |common|, correct, classMetrics, Some(confusion),
                         avgCorrect, avgIncorrect, undeterminedCount));
  }

  /**
   * `calculate_metrics` as written: the final return names `accuracy`,
   * which the function never assigns (it computes `accuracy_on_classified`),
   * so every call with an image both labelled and predicted ends in a
   * NameError; only the empty case returns a record.
   */
  method CalculateMetricsAsWritten(groundTruth: map<string, Season>, predictions: map<string, Season>,
                                   confidences: map<string, real>, undeterminedCount: nat)
    returns (r: Result<Metrics, string>)
    ensures CommonImages(groundTruth, predictions) == {} ==> r == Success(EmptyMetrics(undeterminedCount))
    ensures CommonImages(groundTruth, predictions) != {} ==> r.Failure?
    ensures CommonImages(groundTruth, predictions) != {} && CommonImages(groundTruth, predictions) <= confidences.Keys
      ==> r == Failure("NameError")
  {
    r := CalculateMetrics(groundTruth, predictions, confidences, undeterminedCount);
    if r.Success? && CommonImages(groundTruth, predictions) != {} {
      r := Failure("NameError");
    }
  }
}
