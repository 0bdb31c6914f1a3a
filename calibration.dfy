/**
  Slope calibration of one metric group (`calibrate_metrics` and its inner
  `strip` in utils/Calibration.py).

  A metric name is looked up in the slope table under a key made of a group
  prefix and the name with every "Mean_" and then every "Std_" deleted. Each
  metric whose key is in the table yields a calibrated entry, named "Cal"
  followed by the metric's name, whose value is the metric's value times the
  slope. Metric values and slopes are `real`, so the product is exact.
 */
module Calibration {
  import opened Text

  /** A metric group: metric name to value. */
  type Group = map<string, real>

  /** The slope table: calibration key to the `slope` of its entry. */
  type SlopeTable = map<string, real>

  /** The substrings `strip` deletes, in the order it deletes them. */
  const MeanTag: string := "Mean_"
  const StdTag: string := "Std_"

  /** What a calibrated entry's name starts with. */
  const CalTag: string := "Cal"

  /** `strip`: every "Mean_" deleted in one scan, then every "Std_" in a second scan. */
  function Strip(metric: string): (r: string)
    ensures |r| <= |metric|
  {
    RemoveAll(RemoveAll(metric, MeanTag), StdTag)
  }

  /** A name is left as it is exactly when it contains neither "Mean_" nor "Std_". */
  lemma StripUnchangedIff(metric: string)
    ensures Strip(metric) == metric <==> !Contains(metric, MeanTag) && !Contains(metric, StdTag)
  {
    var once := RemoveAll(metric, MeanTag);
    RemoveAllUnchangedIff(metric, MeanTag);
    RemoveAllUnchangedIff(once, StdTag);
    if Contains(metric, MeanTag) {
      RemoveAllShrinks(metric, MeanTag);
    }
  }

  /** "Cal" contains no character that starts "Mean_" or "Std_", so `strip` passes over it. */
  lemma StripCalTag(metric: string)
    ensures Strip(CalName(metric)) == CalName(Strip(metric))
  {
    RemoveAllKeepsPrefix(CalTag, metric, MeanTag);
    RemoveAllKeepsPrefix(CalTag, RemoveAll(metric, MeanTag), StdTag);
  }

  /** Both tags end in "_", so a name without one is left as it is. */
  lemma StripNoUnderscore(metric: string)
    requires '_' !in metric
    ensures Strip(metric) == metric
  {
    RemoveAllMissingChar(metric, MeanTag, 4);
    RemoveAllMissingChar(metric, StdTag, 3);
  }

  /** A "Std_"-tagged name loses its tag, so it is looked up under the bare name. */
  lemma StripStdTagged(bare: string)
    requires '_' !in bare
    ensures Strip(StdTag + bare) == bare
  {
    RemoveAllKeepsPrefix(StdTag, bare, MeanTag);
    RemoveAllMissingChar(bare, MeanTag, 4);
    RemoveAllDropsHead(bare, StdTag);
    RemoveAllMissingChar(bare, StdTag, 3);
  }

  /**
    "Mean_" is deleted wherever it stands, not only at the start of the name:
    "SaliencyWtdMean_foo" becomes "SaliencyWtdfoo".
   */
  lemma StripInnerMean(head: string, bare: string)
    requires 'M' !in head && '_' !in head && '_' !in bare
    ensures Strip(head + MeanTag + bare) == head + bare
  {
    assert head + MeanTag + bare == head + (MeanTag + bare);
    RemoveAllKeepsPrefix(head, MeanTag + bare, MeanTag);
    RemoveAllDropsHead(bare, MeanTag);
    RemoveAllMissingChar(bare, MeanTag, 4);
    RemoveAllMissingChar(head + bare, StdTag, 3);
  }

  /**
    "Mean_" goes first: deleting it can join the pieces of a "Std_" that the
    second scan then deletes ("StMean_d_x" becomes "x"), which the opposite
    order would keep ("Std_x").
   */
  lemma StripOrder(bare: string)
    requires '_' !in bare
    ensures Strip("StMean_d_" + bare) == bare
    ensures RemoveAll(RemoveAll("StMean_d_" + bare, StdTag), MeanTag) == StdTag + bare
  {
    OrderMeanScan(bare);
    RemoveAllDropsHead(bare, StdTag);
    RemoveAllMissingChar(bare, StdTag, 3);
    OrderStdScan(bare);
  }

  /** The "Mean_" scan of StripOrder joins "St" and "d_" into "Std_". */
  lemma OrderMeanScan(bare: string)
    requires '_' !in bare
    ensures RemoveAll("StMean_d_" + bare, MeanTag) == StdTag + bare
  {
    assert "StMean_d_" + bare == "St" + (MeanTag + ("d_" + bare));
    RemoveAllKeepsPrefix("St", MeanTag + ("d_" + bare), MeanTag);
    RemoveAllDropsHead("d_" + bare, MeanTag);
    RemoveAllKeepsPrefix("d_", bare, MeanTag);
    RemoveAllMissingChar(bare, MeanTag, 4);
    assert "St" + "d_" == StdTag;
    ConcatAssoc("St", "d_", bare);
  }

  /** A "Std_" scan that comes first finds nothing to delete in "StMean_d_" + bare. */
  lemma OrderStdScan(bare: string)
    requires '_' !in bare
    ensures RemoveAll("StMean_d_" + bare, StdTag) == "StMean_d_" + bare
  {
    var s := "StMean_d_" + bare;
    assert !OccursAt(s, StdTag, 0) by {
      assert s[..|StdTag|][2] != StdTag[2];
    }
    RemoveAllKeepsHead(s, StdTag);
    assert s[1..] == "tMean_d_" + bare;
    RemoveAllKeepsPrefix("tMean_d_", bare, StdTag);
    RemoveAllMissingChar(bare, StdTag, 3);
    assert [s[0]] + s[1..] == s;
  }

  /** Each deletion is one scan: a "Mean_" formed by deleting another one stays ("MeMean_an_x" becomes "Mean_x"). */
  lemma StripSinglePass(bare: string)
    requires '_' !in bare
    ensures Strip("MeMean_an_" + bare) == MeanTag + bare
  {
    SinglePassFirstScan(bare);
    RemoveAllKeepsPrefix(MeanTag, bare, StdTag);
    RemoveAllMissingChar(bare, StdTag, 3);
  }

  /** The "Mean_" scan of StripSinglePass. */
  lemma SinglePassFirstScan(bare: string)
    requires '_' !in bare
    ensures RemoveAll("MeMean_an_" + bare, MeanTag) == MeanTag + bare
  {
    var s := "MeMean_an_" + bare;
    var rest := "e" + (MeanTag + ("an_" + bare));
    assert !OccursAt(s, MeanTag, 0) by {
      assert s[..|MeanTag|][2] != MeanTag[2];
    }
    RemoveAllKeepsHead(s, MeanTag);
    assert s[1..] == rest;
    assert RemoveAll(rest, MeanTag) == "e" + ("an_" + bare) by {
      RemoveAllKeepsPrefix("e", MeanTag + ("an_" + bare), MeanTag);
      RemoveAllDropsHead("an_" + bare, MeanTag);
      RemoveAllKeepsPrefix("an_", bare, MeanTag);
      RemoveAllMissingChar(bare, MeanTag, 4);
    }
    ConcatAssoc("e", "an_", bare);
    ConcatAssoc([s[0]], "e" + "an_", bare);
    assert [s[0]] + ("e" + "an_") == MeanTag;
  }

  /** A calibrated value: the metric's value times the slope, exactly. */
  function Scale(value: real, slope: real): real {
    value * slope
  }

  /** The name of the calibrated entry made from `metric`. */
  function CalName(metric: string): (name: string)
    ensures |name| == |CalTag| + |metric|
    ensures name[..|CalTag|] == CalTag && name[|CalTag|..] == metric
  {
    CalTag + metric
  }

  /** A name that starts with "Cal" is the calibrated name of what follows the tag. */
  lemma CalNameOf(k: string)
    requires |CalTag| <= |k| && k[..|CalTag|] == CalTag
    ensures CalName(k[|CalTag|..]) == k
  {
    assert k == k[..|CalTag|] + k[|CalTag|..];
  }

  /** The key under which a metric of the group with prefix `pfx` is looked up. */
  function CalibrationKey(pfx: string, metric: string): (key: string)
    ensures |pfx| <= |key| <= |pfx| + |metric|
    ensures key[..|pfx|] == pfx
    ensures !Contains(metric, MeanTag) && !Contains(metric, StdTag) ==> key == pfx + metric
  {
    StripUnchangedIff(metric);
    pfx + Strip(metric)
  }

  /** The metrics of `cta` that have an entry in the slope table. */
  ghost function Matching(cta: Group, slopes: SlopeTable, pfx: string): set<string> {
    set m | m in cta && CalibrationKey(pfx, m) in slopes
  }

  /**
    `calibrate_metrics`: a new map with one calibrated entry per matching
    metric and nothing else. Unmatched metrics are skipped without error.
    What it holds is stated by CalibrateMetricsEntries, its size by
    CalibratedSize.
   */
  function CalibrateMetrics(cta: Group, slopes: SlopeTable, pfx: string): Group {
    map k | k in CalNames(cta) && CalibrationKey(pfx, k[|CalTag|..]) in slopes ::
      CalibratedValue(cta, slopes, pfx, k[|CalTag|..])
  }

  /** The calibrated names of the metrics of `cta`. */
  function CalNames(cta: Group): (names: set<string>)
    ensures forall m {:trigger CalName(m)} :: CalName(m) in names <==> m in cta
    ensures forall k :: k in names ==> |CalTag| <= |k| && k[..|CalTag|] == CalTag && k[|CalTag|..] in cta
  {
    set m | m in cta :: CalName(m)
  }

  /** `cta[metric] * cal[pfx + strip(metric)]['slope']` for a metric that has a slope. */
  function CalibratedValue(cta: Group, slopes: SlopeTable, pfx: string, m: string): real
    requires m in cta && CalibrationKey(pfx, m) in slopes
  {
    Scale(cta[m], slopes[CalibrationKey(pfx, m)])
  }

  /**
    The calibrated map holds "Cal" + m exactly for the metrics m of `cta`
    whose key is in the table, each with the metric's value times its slope,
    and no name that does not start with "Cal".
   */
  lemma CalibrateMetricsEntries(cta: Group, slopes: SlopeTable, pfx: string)
    ensures forall m {:trigger CalName(m)} ::
              CalName(m) in CalibrateMetrics(cta, slopes, pfx) <==> m in cta && CalibrationKey(pfx, m) in slopes
    ensures forall m {:trigger CalName(m)} :: CalName(m) in CalibrateMetrics(cta, slopes, pfx) ==>
              CalibrateMetrics(cta, slopes, pfx)[CalName(m)] == Scale(cta[m], slopes[CalibrationKey(pfx, m)])
    ensures forall k :: k in CalibrateMetrics(cta, slopes, pfx) ==> |CalTag| <= |k| && k[..|CalTag|] == CalTag
  {
  }

  /** Distinct metric names give distinct calibrated names. */
  lemma CalTagInjective()
    ensures forall a: string, b: string :: CalName(a) == CalName(b) ==> a == b
  {
    forall a: string, b: string | CalName(a) == CalName(b) ensures a == b {
      assert a == CalName(a)[|CalTag|..];
      assert b == CalName(b)[|CalTag|..];
    }
  }

  /** Prefixing "Cal" is injective, so a set of names and its calibrated names have the same size. */
  lemma {:induction false} CalTagImageSize(names: set<string>)
    ensures |set m | m in names :: CalName(m)| == |names|
    decreases names
  {
    if names != {} {
      var x :| x in names;
      var rest := names - {x};
      CalTagImageSize(rest);
      var image := set m | m in rest :: CalName(m);
      assert (set m | m in names :: CalName(m)) == image + {CalName(x)};
      CalTagInjective();
      assert CalName(x) !in image;
    }
  }

  /** The calibrated map has exactly one entry per matching metric. */
  lemma CalibratedSize(cta: Group, slopes: SlopeTable, pfx: string)
    ensures |CalibrateMetrics(cta, slopes, pfx)| == |Matching(cta, slopes, pfx)|
  {
    var r := CalibrateMetrics(cta, slopes, pfx);
    var names := Matching(cta, slopes, pfx);
    forall k | k in r ensures k in set m | m in names :: CalName(m) {
      assert k == CalName(k[|CalTag|..]);
    }
    assert r.Keys == set m | m in names :: CalName(m);
    CalTagImageSize(names);
  }

  /**
    `group.update(calibrate_metrics(group, ...))`: the group afterwards. The
    calibrated map is computed in full before the update, so every value is
    taken from the group as it was before the call.
   */
  function UpdateGroup(group: Group, slopes: SlopeTable, pfx: string): Group {
    group + CalibrateMetrics(group, slopes, pfx)
  }

  /**
    The updated group has the old names and the calibrated ones; an old entry
    keeps its value unless a calibrated entry of the same name replaces it, and
    every matching metric's calibrated entry is there with the scaled value.
   */
  lemma UpdateGroupEntries(group: Group, slopes: SlopeTable, pfx: string)
    ensures UpdateGroup(group, slopes, pfx).Keys == group.Keys + CalibrateMetrics(group, slopes, pfx).Keys
    ensures forall k :: k in group && k !in CalibrateMetrics(group, slopes, pfx) ==>
              UpdateGroup(group, slopes, pfx)[k] == group[k]
    ensures forall m {:trigger CalName(m)} :: m in group && CalibrationKey(pfx, m) in slopes ==>
              CalName(m) in UpdateGroup(group, slopes, pfx) &&
              UpdateGroup(group, slopes, pfx)[CalName(m)] == Scale(group[m], slopes[CalibrationKey(pfx, m)])
  {
    CalibrateMetricsEntries(group, slopes, pfx);
  }

  /** Overriding twice with the same map is overriding once. */
  lemma OverrideTwice(a: Group, b: Group)
    ensures (a + b) + b == a + b
  {
  }

  /** Every entry of the updated group was in the group before, or is calibrated from one that was. */
  lemma UpdateGroupOrigins(group: Group, slopes: SlopeTable, pfx: string, k: string)
    requires k in UpdateGroup(group, slopes, pfx)
    ensures k in group || (|CalTag| <= |k| && k[..|CalTag|] == CalTag && k[|CalTag|..] in group)
  {
    if k !in group {
      CalNameOf(k);
    }
  }

  /** A group with no metric in the table comes out unchanged. */
  lemma UpdateGroupNoMatch(group: Group, slopes: SlopeTable, pfx: string)
    requires forall m :: m in group ==> CalibrationKey(pfx, m) !in slopes
    ensures UpdateGroup(group, slopes, pfx) == group
  {
    CalibrateMetricsEntries(group, slopes, pfx);
    assert CalibrateMetrics(group, slopes, pfx) == map[];
  }

  /** A group of one metric that has a slope gains exactly its calibrated entry. */
  lemma UpdateGroupSingle(m: string, v: real, slopes: SlopeTable, pfx: string)
    requires CalibrationKey(pfx, m) in slopes
    ensures UpdateGroup(map[m := v], slopes, pfx) == map[m := v, CalName(m) := Scale(v, slopes[CalibrationKey(pfx, m)])]
  {
    var group := map[m := v];
    var cal := CalibrateMetrics(group, slopes, pfx);
    var expected := map[m := v, CalName(m) := Scale(v, slopes[CalibrationKey(pfx, m)])];
    assert CalName(m) in cal;
    forall k | k in cal ensures k == CalName(m) {
      CalNameOf(k);
    }
    SameGroup(group + cal, expected);
  }

  /** Two groups with the same names and the same values are the same group. */
  lemma SameGroup(a: Group, b: Group)
    requires forall k :: k in a <==> k in b
    requires forall k :: k in a ==> a[k] == b[k]
    ensures a == b
  {
  }

  /**
    Provided no name that starts with "Cal" has a key in the table, calibrating
    the updated group yields the same entries as calibrating the original: the
    matching metrics are the original ones, with their original values.
   */
  lemma RecalibrateSameEntries(group: Group, slopes: SlopeTable, pfx: string)
    requires forall m :: CalibrationKey(pfx, CalName(m)) !in slopes
    ensures CalibrateMetrics(UpdateGroup(group, slopes, pfx), slopes, pfx) == CalibrateMetrics(group, slopes, pfx)
  {
    var cal := CalibrateMetrics(group, slopes, pfx);
    var once := UpdateGroup(group, slopes, pfx);
    var cal2 := CalibrateMetrics(once, slopes, pfx);
    forall k | k in cal2 ensures k in cal && cal2[k] == cal[k] {
      CalNameOf(k);
      var m := k[|CalTag|..];
      assert m in once && CalibrationKey(pfx, m) in slopes;
      if m in cal {
        CalNameOf(m);
        assert false;
      }
      assert m in group && once[m] == group[m];
    }
    forall k | k in cal ensures k in cal2 {
      CalNameOf(k);
      var m := k[|CalTag|..];
      assert m in group && CalibrationKey(pfx, m) in slopes;
      assert m in once;
    }
    SameGroup(cal2, cal);
  }

  /**
    Calibrating a group a second time changes nothing, provided no name that
    starts with "Cal" has a key in the table: the second run rewrites the
    entries the first one made, with the same values.
   */
  lemma UpdateGroupIdempotent(group: Group, slopes: SlopeTable, pfx: string)
    requires forall m :: CalibrationKey(pfx, CalName(m)) !in slopes
    ensures UpdateGroup(UpdateGroup(group, slopes, pfx), slopes, pfx) == UpdateGroup(group, slopes, pfx)
  {
    var cal := CalibrateMetrics(group, slopes, pfx);
    var once := UpdateGroup(group, slopes, pfx);
    RecalibrateSameEntries(group, slopes, pfx);
    assert once == group + cal;
    assert UpdateGroup(once, slopes, pfx) == once + cal;
    OverrideTwice(group, cal);
  }

  /** Without that proviso a second run can calibrate an entry made by the first. */
  lemma RecalibrationExample(pfx: string)
    ensures var slopes := map[pfx + "x" := 3.0, pfx + "Calx" := 5.0];
            var once := UpdateGroup(map["x" := 2.0], slopes, pfx);
            && once == map["x" := 2.0, "Calx" := 6.0]
            && var twice := UpdateGroup(once, slopes, pfx);
               "CalCalx" in twice && twice["CalCalx"] == 30.0 && twice != once
  {
    var slopes := map[pfx + "x" := 3.0, pfx + "Calx" := 5.0];
    var group := map["x" := 2.0];
    StripNoUnderscore("x");
    StripCalTag("x");
    assert CalName("x") == "Calx" && CalName("Calx") == "CalCalx";
    assert CalibrationKey(pfx, "x") == pfx + "x";
    assert CalibrationKey(pfx, "Calx") == pfx + "Calx";
    var cal := CalibrateMetrics(group, slopes, pfx);
    assert CalName("x") in cal;
    forall k | k in cal ensures k == "Calx" {
      CalNameOf(k);
    }
    var once := map["x" := 2.0, "Calx" := 6.0];
    SameGroup(group + cal, once);
    var twice := UpdateGroup(once, slopes, pfx);
    assert CalName("Calx") in twice;
    assert "CalCalx" !in once;
  }
}
