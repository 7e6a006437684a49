/** The experiment comparison panel: experiment cards with a training chart each, checkboxes
    that build a selection for comparison, and the metric and validation switches the charts
    follow. */
module ExperimentComparison {
  import opened Lists
  import opened Text

  /** An experiment as the panel receives it; the metric series hold one value per epoch. */
  datatype Run = Run(id: string, name: string, status: string,
                     accuracy: seq<real>, loss: seq<real>,
                     valAccuracy: seq<real>, valLoss: seq<real>,
                     epochs: int, currentEpoch: int)

  datatype Metric = Accuracy | Loss

  /** One line of a chart. */
  datatype Series = Series(title: string, data: seq<real>)

  datatype ChartData = ChartData(labels: seq<string>, datasets: seq<Series>)

  /** `selectedExperiments.includes(id) ? filter(x => x !== id) : [...selected, id]`. */
  function ToggleSelection(selected: seq<string>, id: string): (r: seq<string>)
    ensures id in r <==> id !in selected
    ensures forall x :: x != id ==> (x in r <==> x in selected)
    ensures id !in selected ==> r == selected + [id]
    ensures id in selected ==> Subsequence(r, selected)
  {
    if id in selected then Filter(selected, (x: string) => x != id) else selected + [id]
  }

  predicate NoDuplicates(s: seq<string>)
  {
    forall i, j :: 0 <= i < j < |s| ==> s[i] != s[j]
  }

  /** Each experiment is in the selection at most once, however the checkboxes are clicked. */
  lemma ToggleKeepsNoDuplicates(selected: seq<string>, id: string)
    requires NoDuplicates(selected)
    ensures NoDuplicates(ToggleSelection(selected, id))
  {
    if id in selected {
      FilterKeepsNoDuplicates(selected, (x: string) => x != id);
    }
  }

  /** Filtering a list without duplicates gives a list without duplicates. */
  lemma {:induction false} FilterKeepsNoDuplicates(s: seq<string>, p: string -> bool)
    requires NoDuplicates(s)
    ensures NoDuplicates(Filter(s, p))
  {
    if s != [] {
      FilterKeepsNoDuplicates(s[1..], p);
      FilterUnfold(s, p);
      var rest := Filter(s[1..], p);
      if p(s[0]) {
        assert s[0] !in s[1..] by {
          forall k | 1 <= k < |s| ensures s[k] != s[0] {}
        }
        assert s[0] !in rest;
        var r := [s[0]] + rest;
        forall i, j | 0 <= i < j < |r| ensures r[i] != r[j] {
          if i > 0 {
            assert r[i] == rest[i - 1] && r[j] == rest[j - 1];
          } else {
            assert r[j] == rest[j - 1];
          }
        }
      }
    }
  }

  lemma {:induction false} NoDuplicatesCountsOne(s: seq<string>, x: string)
    requires NoDuplicates(s)
    ensures multiset(s)[x] <= 1
  {
    if s != [] {
      assert s == [s[0]] + s[1..];
      NoDuplicatesCountsOne(s[1..], x);
      if s[0] == x {
        assert x !in s[1..] by {
          forall k | 1 <= k < |s| ensures s[k] != s[0] {}
        }
      }
    }
  }

  /** Checking and then unchecking a box that was unchecked restores the selection exactly;
      unchecking and re-checking a checked box keeps the same experiments selected (it moves to
      the end). */
  lemma ToggleTwice(selected: seq<string>, id: string)
    ensures id !in selected ==> ToggleSelection(ToggleSelection(selected, id), id) == selected
    ensures NoDuplicates(selected) ==>
      multiset(ToggleSelection(ToggleSelection(selected, id), id)) == multiset(selected)
  {
    var p := (x: string) => x != id;
    if id !in selected {
      FilterAppend(selected, [id], p);
      FilterKeepsAll(selected, p);
      assert Filter([id], p) == [];
    } else if NoDuplicates(selected) {
      var once := Filter(selected, p);
      NoDuplicatesCountsOne(selected, id);
      assert multiset(once + [id]) == multiset(once) + multiset{id};
      assert multiset(once + [id]) == multiset(selected) by {
        forall x ensures multiset(once + [id])[x] == multiset(selected)[x] {
          if x == id {
            assert id in multiset(selected);
          }
        }
      }
    }
  }

  /** The compare bar appears once more than one experiment is selected. */
  predicate CompareShown(selected: seq<string>)
  {
    |selected| > 1
  }

  /** Checking a second experiment shows the compare bar; unchecking one of two hides it. */
  lemma CompareAfterToggle(a: string, b: string)
    requires a != b
    ensures CompareShown(ToggleSelection([a], b))
    ensures !CompareShown(ToggleSelection([a, b], b))
  {
    assert ToggleSelection([a, b], b) == Filter([a, b], (x: string) => x != b);
  }

  function StatusColor(status: string): (r: string)
    ensures r == "bg-gray-100 text-gray-800" <==> status !in ["running", "completed", "failed"]
  {
    match status
    case "running" => "bg-yellow-100 text-yellow-800"
    case "completed" => "bg-green-100 text-green-800"
    case "failed" => "bg-red-100 text-red-800"
    case _ => "bg-gray-100 text-gray-800"
  }

  /** The progress bar is drawn for running experiments only. */
  predicate ProgressShown(r: Run) { r.status == "running" }

  /** The end index `slice(0, end)` uses on a list of length `len`: a negative end counts from
      the back, and the result is clamped to the list. */
  function JsSliceEnd(len: nat, end: int): (r: nat)
    ensures r <= len
    ensures 0 <= end ==> r == if end < len then end else len
    ensures end < 0 ==> r == if len + end > 0 then len + end else 0
  {
    if end < 0 then (if len + end > 0 then len + end else 0)
    else if end < len then end else len
  }

  /** `s.slice(0, end)`. */
  function Slice(s: seq<real>, end: int): (r: seq<real>)
    ensures |r| == JsSliceEnd(|s|, end) && r <= s
  {
    s[..JsSliceEnd(|s|, end)]
  }

  /** `Array.from({ length: n })` has no elements for a negative `n`. */
  function EpochCount(n: int): nat { if n < 0 then 0 else n }

  function EpochLabel(i: nat): string
  {
    "Epoch " + NatToDecimal(i + 1)
  }

  /** `getChartData`: one label per completed epoch, and a training series (and, when
      validation is shown, a validation series) of the chosen metric, cut at the current
      epoch. */
  function GetChartData(r: Run, metric: Metric, showValidation: bool): (c: ChartData)
    ensures |c.labels| == EpochCount(r.currentEpoch)
    ensures forall i :: 0 <= i < |c.labels| ==> c.labels[i] == EpochLabel(i)
    ensures |c.datasets| == if showValidation then 2 else 1
    ensures c.datasets[0].title == if metric == Accuracy then "Training Accuracy" else "Training Loss"
    ensures showValidation ==>
              c.datasets[1].title == if metric == Accuracy then "Validation Accuracy" else "Validation Loss"
    ensures c.datasets[0].data == Slice(if metric == Accuracy then r.accuracy else r.loss, r.currentEpoch)
    ensures showValidation ==>
              c.datasets[1].data == Slice(if metric == Accuracy then r.valAccuracy else r.valLoss, r.currentEpoch)
  {
    var labels := seq(EpochCount(r.currentEpoch), (i: int) requires 0 <= i => EpochLabel(i));
    var training := if metric == Accuracy then Series("Training Accuracy", Slice(r.accuracy, r.currentEpoch))
                    else Series("Training Loss", Slice(r.loss, r.currentEpoch));
    var validation := if metric == Accuracy then Series("Validation Accuracy", Slice(r.valAccuracy, r.currentEpoch))
                      else Series("Validation Loss", Slice(r.valLoss, r.currentEpoch));
    ChartData(labels, if showValidation then [training, validation] else [training])
  }

  /** Epoch labels are all different, since decimal numerals are. */
  lemma EpochLabelsDistinct(i: nat, j: nat)
    requires i != j
    ensures EpochLabel(i) != EpochLabel(j)
  {
    DecimalRoundTrip(i + 1);
    DecimalRoundTrip(j + 1);
    assert EpochLabel(i)[6..] == NatToDecimal(i + 1);
    assert EpochLabel(j)[6..] == NatToDecimal(j + 1);
  }

  /** While the recorded series reach the current epoch, every line has one point per label and
      its points are the first values of the series. */
  lemma ChartAligned(r: Run, metric: Metric, showValidation: bool)
    requires 0 <= r.currentEpoch
    requires r.currentEpoch <= |r.accuracy| && r.currentEpoch <= |r.loss|
    requires r.currentEpoch <= |r.valAccuracy| && r.currentEpoch <= |r.valLoss|
    ensures forall k :: 0 <= k < |GetChartData(r, metric, showValidation).datasets| ==>
      |GetChartData(r, metric, showValidation).datasets[k].data| == |GetChartData(r, metric, showValidation).labels|
    ensures GetChartData(r, metric, showValidation).datasets[0].data ==
      (if metric == Accuracy then r.accuracy else r.loss)[..r.currentEpoch]
  {
  }

  /** A negative current epoch gives no labels, yet the lines keep all but the last few values. */
  lemma NegativeEpochChart(r: Run, metric: Metric)
    requires r.currentEpoch < 0 && metric == Accuracy
    requires |r.accuracy| > -r.currentEpoch
    ensures GetChartData(r, metric, false).labels == []
    ensures |GetChartData(r, metric, false).datasets[0].data| == |r.accuracy| + r.currentEpoch
  {
  }

  /** The panel's own state: the checked experiments and the chart switches. */
  class ComparisonPanel {
    var selectedExperiments: seq<string>
    var metricToShow: Metric
    var showValidation: bool

    constructor ()
      ensures selectedExperiments == [] && metricToShow == Accuracy && showValidation
    {
      selectedExperiments := [];
      metricToShow := Accuracy;
      showValidation := true;
    }

    ghost predicate Valid()
      reads this
    {
      NoDuplicates(selectedExperiments)
    }

    /** A card's checkbox. */
    method ToggleExperiment(id: string)
      requires Valid()
      modifies this`selectedExperiments
      ensures Valid()
      ensures selectedExperiments == ToggleSelection(old(selectedExperiments), id)
      ensures id in selectedExperiments <==> id !in old(selectedExperiments)
    {
      ToggleKeepsNoDuplicates(selectedExperiments, id);
      selectedExperiments := ToggleSelection(selectedExperiments, id);
    }

    method SetMetric(m: Metric)
      modifies this`metricToShow
      ensures metricToShow == m
    {
      metricToShow := m;
    }

    method ToggleValidation()
      modifies this`showValidation
      ensures showValidation == !old(showValidation)
    {
      showValidation := !showValidation;
    }

    /** The chart drawn on one experiment's card. */
    function Chart(r: Run): ChartData
      reads this
    {
      GetChartData(r, metricToShow, showValidation)
    }
  }
}
