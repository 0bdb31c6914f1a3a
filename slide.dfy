/**
  The in-memory part of `calibrate_slide_metrics` (utils/Calibration.py):
  calibrate the weighted group and the global group of a loaded metrics
  document and merge each calibrated map into its group in place.

  The document is a class whose `metrics` field is the document's "metrics"
  object (None when the document has no such field), a map from group name to
  group. Each merge is Python's `dict.update`, which is Dafny's map `+`: the
  calibrated entries are added, and overwrite an entry of the same name.
 */
module SlideCalibration {
  import opened Calibration

  datatype Option<T> = None | Some(value: T)

  /** The "metrics" object of a document: group name to group. */
  type Metrics = map<string, Group>

  /** The field and group names the source indexes, and the prefix of each group. */
  const MetricsField: string := "metrics"
  const WeightedGroup: string := "weighted_by_rois"
  const GlobalGroup: string := "unweighted_global"
  const WeightedPrefix: string := "CTA.SaliencyWtdMean_"
  const GlobalPrefix: string := "CTA.Global_"

  /** How a call ends: normally, or with Python's KeyError for the named key. */
  datatype Outcome = Completed | KeyError(key: string)

  /** The document's metrics after a call, and how the call ended. */
  datatype SlideResult = SlideResult(metrics: Option<Metrics>, outcome: Outcome)

  /** `metrics.get(name, {})`. */
  function GroupOrEmpty(metrics: Metrics, name: string): Group {
    if name in metrics then metrics[name] else map[]
  }

  /**
    The effect of the calibration steps on the document's metrics. The
    groups are read with `get`, which tolerates a missing group, but merged
    with a direct index, which does not: a missing "metrics" field or a
    missing group raises KeyError. A missing global group is noticed only
    after the weighted group has been updated, and that update stays.
   */
  function CalibrateSlide(metrics: Option<Metrics>, slopes: SlopeTable): (r: SlideResult)
    ensures r.outcome == KeyError(MetricsField) <==> metrics.None?
    ensures r.outcome == KeyError(WeightedGroup) <==> metrics.Some? && WeightedGroup !in metrics.value
    ensures r.outcome == KeyError(GlobalGroup) <==>
              metrics.Some? && WeightedGroup in metrics.value && GlobalGroup !in metrics.value
    ensures r.outcome == Completed <==>
              metrics.Some? && WeightedGroup in metrics.value && GlobalGroup in metrics.value
    ensures r.outcome != Completed && r.outcome != KeyError(GlobalGroup) ==> r.metrics == metrics
    ensures r.metrics.Some? <==> metrics.Some?
  {
    if metrics.None? then SlideResult(metrics, KeyError(MetricsField))
    else if WeightedGroup !in metrics.value then SlideResult(metrics, KeyError(WeightedGroup))
    else
      var before := metrics.value;
      var merged := before[WeightedGroup := UpdateGroup(before[WeightedGroup], slopes, WeightedPrefix)];
      if GlobalGroup !in before then SlideResult(Some(merged), KeyError(GlobalGroup))
      else SlideResult(Some(merged[GlobalGroup := UpdateGroup(before[GlobalGroup], slopes, GlobalPrefix)]), Completed)
  }

  /**
    What the calls leave in the groups: no group is added or removed, a
    group other than the two calibrated ones is untouched, the weighted group
    (when present) is its own update, and so is the global group when the
    call completes.
   */
  lemma CalibrateSlideGroups(metrics: Metrics, slopes: SlopeTable)
    ensures var r := CalibrateSlide(Some(metrics), slopes).metrics.value;
            && (forall g :: g in r <==> g in metrics)
            && (forall g :: g in metrics && g != WeightedGroup && g != GlobalGroup ==> r[g] == metrics[g])
            && (WeightedGroup in metrics ==> r[WeightedGroup] == UpdateGroup(metrics[WeightedGroup], slopes, WeightedPrefix))
            && (WeightedGroup in metrics && GlobalGroup in metrics ==>
                  r[GlobalGroup] == UpdateGroup(metrics[GlobalGroup], slopes, GlobalPrefix))
  {
    assert |WeightedGroup| != |GlobalGroup|;
    if WeightedGroup in metrics {
      var merged := metrics[WeightedGroup := UpdateGroup(metrics[WeightedGroup], slopes, WeightedPrefix)];
      if GlobalGroup in metrics {
        var done := merged[GlobalGroup := UpdateGroup(metrics[GlobalGroup], slopes, GlobalPrefix)];
        assert CalibrateSlide(Some(metrics), slopes).metrics.value == done;
      } else {
        assert CalibrateSlide(Some(metrics), slopes).metrics.value == merged;
      }
    }
  }

  /** A loaded metrics document. */
  class SlideDocument {
    /** The document's "metrics" field; None when the document has none. */
    var metrics: Option<Metrics>

    constructor (metrics: Option<Metrics>)
      ensures this.metrics == metrics
    {
      this.metrics := metrics;
    }

    /**
      Lines 43-51 of `calibrate_slide_metrics`: the two groups are
      calibrated and updated in place, the weighted one first.
     */
    method CalibrateSlideMetrics(slopes: SlopeTable) returns (outcome: Outcome)
      modifies this
      ensures metrics == CalibrateSlide(old(metrics), slopes).metrics
      ensures outcome == CalibrateSlide(old(metrics), slopes).outcome
    {
      if metrics.None? {
        return KeyError(MetricsField);
      }
      var weighted := GroupOrEmpty(metrics.value, WeightedGroup);
      var weightedCal := CalibrateMetrics(weighted, slopes, WeightedPrefix);
      if WeightedGroup !in metrics.value {
        return KeyError(WeightedGroup);
      }
      metrics := Some(metrics.value[WeightedGroup := metrics.value[WeightedGroup] + weightedCal]);
      var unweighted := GroupOrEmpty(metrics.value, GlobalGroup);
      var unweightedCal := CalibrateMetrics(unweighted, slopes, GlobalPrefix);
      if GlobalGroup !in metrics.value {
        return KeyError(GlobalGroup);
      }
      metrics := Some(metrics.value[GlobalGroup := metrics.value[GlobalGroup] + unweightedCal]);
      return Completed;
    }
  }

  /**
    Calibration never removes an entry: every entry of every group is still
    there afterwards, with its old value unless a calibrated entry of the
    same name replaced it.
   */
  lemma CalibrateSlideKeepsEntries(metrics: Metrics, slopes: SlopeTable, g: string, k: string)
    requires g in metrics && k in metrics[g]
    ensures var after := CalibrateSlide(Some(metrics), slopes).metrics.value;
            && g in after && k in after[g]
            && (g != WeightedGroup && g != GlobalGroup ==> after[g][k] == metrics[g][k])
            && (g == WeightedGroup && k !in CalibrateMetrics(metrics[g], slopes, WeightedPrefix) ==>
                  after[g][k] == metrics[g][k])
            && (g == GlobalGroup && k !in CalibrateMetrics(metrics[g], slopes, GlobalPrefix) ==>
                  after[g][k] == metrics[g][k])
  {
  }

  /**
    A global "Std_" metric is calibrated by the table entry under the global
    prefix and the bare name: a global "Std_bar" of 10 and a slope of 0.5 under
    "CTA.Global_bar" give "CalStd_bar" = 5, and nothing else changes.
   */
  lemma GlobalStdCalibrated(bare: string, v: real, slope: real)
    requires '_' !in bare
    ensures var metrics := map[WeightedGroup := map[], GlobalGroup := map[StdTag + bare := v]];
            var r := CalibrateSlide(Some(metrics), map[GlobalPrefix + bare := slope]);
            && r.outcome == Completed
            && r.metrics.value == map[WeightedGroup := map[],
                                      GlobalGroup := map[StdTag + bare := v, CalName(StdTag + bare) := Scale(v, slope)]]
  {
    var slopes := map[GlobalPrefix + bare := slope];
    var metrics := map[WeightedGroup := map[], GlobalGroup := map[StdTag + bare := v]];
    StripStdTagged(bare);
    assert CalibrationKey(GlobalPrefix, StdTag + bare) == GlobalPrefix + bare;
    UpdateGroupSingle(StdTag + bare, v, slopes, GlobalPrefix);
    UpdateGroupNoMatch(map[], slopes, WeightedPrefix);
    CalibrateSlideGroups(metrics, slopes);
    SameMetrics(CalibrateSlide(Some(metrics), slopes).metrics.value,
                map[WeightedGroup := map[],
                    GlobalGroup := map[StdTag + bare := v, CalName(StdTag + bare) := Scale(v, slope)]]);
  }

  /** What the weighted prefix "CTA.SaliencyWtdMean_" holds before its "Mean_". */
  const WeightedHead: string := "SaliencyWtd"

  /**
    A weighted "SaliencyWtdMean_foo" is NOT calibrated by the entry
    "CTA.SaliencyWtdMean_foo": its own "Mean_" is deleted first, so it is
    looked up as "CTA.SaliencyWtdMean_SaliencyWtdfoo", and the document is
    left as it was.
   */
  lemma WeightedMeanNotCalibrated(bare: string, v: real, slope: real)
    requires '_' !in bare
    ensures var metrics := map[WeightedGroup := map[WeightedHead + MeanTag + bare := v], GlobalGroup := map[]];
            var r := CalibrateSlide(Some(metrics), map[WeightedPrefix + bare := slope]);
            && r.outcome == Completed
            && r.metrics.value == metrics
  {
    var slopes := map[WeightedPrefix + bare := slope];
    var weighted := map[WeightedHead + MeanTag + bare := v];
    var metrics := map[WeightedGroup := weighted, GlobalGroup := map[]];
    StripInnerMean(WeightedHead, bare);
    assert |CalibrationKey(WeightedPrefix, WeightedHead + MeanTag + bare)| > |WeightedPrefix + bare|;
    UpdateGroupNoMatch(weighted, slopes, WeightedPrefix);
    UpdateGroupNoMatch(map[], slopes, GlobalPrefix);
    CalibrateSlideGroups(metrics, slopes);
    SameMetrics(CalibrateSlide(Some(metrics), slopes).metrics.value, metrics);
  }

  /** Without a global group the call fails, after the weighted group was updated. */
  lemma MissingGlobalKeepsWeighted(bare: string, v: real, slope: real)
    requires '_' !in bare
    ensures var metrics := map[WeightedGroup := map[StdTag + bare := v]];
            var r := CalibrateSlide(Some(metrics), map[WeightedPrefix + bare := slope]);
            && r.outcome == KeyError(GlobalGroup)
            && r.metrics.value == map[WeightedGroup := map[StdTag + bare := v, CalName(StdTag + bare) := Scale(v, slope)]]
  {
    var slopes := map[WeightedPrefix + bare := slope];
    var metrics := map[WeightedGroup := map[StdTag + bare := v]];
    StripStdTagged(bare);
    assert CalibrationKey(WeightedPrefix, StdTag + bare) == WeightedPrefix + bare;
    UpdateGroupSingle(StdTag + bare, v, slopes, WeightedPrefix);
    CalibrateSlideGroups(metrics, slopes);
    SameMetrics(CalibrateSlide(Some(metrics), slopes).metrics.value,
                map[WeightedGroup := map[StdTag + bare := v, CalName(StdTag + bare) := Scale(v, slope)]]);
  }

  /**
    When no "Cal…" name has a key in the table under either prefix, running
    the calibration on its own result changes nothing and ends the same way.
   */
  lemma CalibrateSlideIdempotent(metrics: Metrics, slopes: SlopeTable)
    requires forall m :: CalibrationKey(WeightedPrefix, CalName(m)) !in slopes
    requires forall m :: CalibrationKey(GlobalPrefix, CalName(m)) !in slopes
    ensures var first := CalibrateSlide(Some(metrics), slopes);
            CalibrateSlide(first.metrics, slopes) == first
  {
    var first := CalibrateSlide(Some(metrics), slopes);
    if WeightedGroup in metrics {
      var once := first.metrics.value;
      CalibrateSlideGroups(metrics, slopes);
      CalibrateSlideGroups(once, slopes);
      UpdateGroupIdempotent(metrics[WeightedGroup], slopes, WeightedPrefix);
      if GlobalGroup in metrics {
        UpdateGroupIdempotent(metrics[GlobalGroup], slopes, GlobalPrefix);
      }
      SameMetrics(CalibrateSlide(Some(once), slopes).metrics.value, once);
    }
  }

  /** Two metrics objects with the same groups are the same. */
  lemma SameMetrics(a: Metrics, b: Metrics)
    requires forall g :: g in a <==> g in b
    requires forall g :: g in a ==> a[g] == b[g]
    ensures a == b
  {
  }
}
