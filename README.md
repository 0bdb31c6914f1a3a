# Slide-metric calibration, modelled in Dafny

This project models the calibration step of `utils/Calibration.py`. A slide's
metrics document holds metric groups, and each group maps a metric name to a
number. The step rescales the metrics of two of those groups by slopes read
from a calibration table.

- **`strip`** derives the lookup name of a metric. It deletes every `"Mean_"`
  and then every `"Std_"`, each in one left-to-right scan.
- **`calibrate_metrics`** builds a new map from one group. Every metric whose
  key is in the table yields an entry named `"Cal"` followed by the metric's
  name. The key is the group prefix followed by the stripped name. The entry's
  value is the metric's value times the slope. Metrics without a key in the
  table are skipped.
- **`calibrate_slide_metrics`** (its in-memory part) applies this to two groups:
  - `weighted_by_rois` with the prefix `"CTA.SaliencyWtdMean_"`;
  - `unweighted_global` with the prefix `"CTA.Global_"`.

  Each calibrated map is merged into its group in place with `dict.update`.

The model has three modules, one per file:

- `Text` (`text.dfy`) defines `RemoveAll`, the semantics of Python's
  `s.replace(pat, '')`. It is one scan that deletes each occurrence it meets
  and resumes right after it.
- `Calibration` (`calibration.dfy`) holds `Strip`, the lookup key,
  `CalibrateMetrics`, and the per-group update `group + CalibrateMetrics(group, …)`.
  Dafny's map `+` is right-biased, as `dict.update` is.
- `SlideCalibration` (`slide.dfy`) holds the document. `SlideDocument` is a
  class whose `metrics` field is the document's `"metrics"` object.
  `CalibrateSlideMetrics` performs the steps of lines 43-51 in order and updates
  that field in place. It is proved equal to the pure function
  `CalibrateSlide`, which gives the final metrics and how the call ends.

Metric values and slopes are `real`, so each calibrated value is the exact
product. The calibration table is reduced to its `slope` field: a map from key
to slope.

Some of the code's behaviour is easy to misread; the model follows the code:

- **A missing group is an error, not an empty group.** Lines 44 and 49 read
  a group with `.get(name, {})`, whose `{}` default suggests that a missing
  group is tolerated. Lines 46 and 51 then index it directly.
  - A missing `weighted_by_rois`, or a missing `"metrics"` field, raises
    KeyError before anything changes.
  - A missing `unweighted_global` raises KeyError after `weighted_by_rois`
    has already been updated in the loaded document
    (`MissingGlobalKeepsWeighted`). The KeyError leaves the function before
    `json.dump` (lines 54-55), so nothing is written to the output file; the
    update exists only in memory.
- **"Mean_" is deleted anywhere in the name, not only as a leading tag.** A
  weighted metric `"SaliencyWtdMean_foo"` is looked up as
  `"CTA.SaliencyWtdMean_SaliencyWtdfoo"`. An entry `"CTA.SaliencyWtdMean_foo"`
  therefore does not calibrate it (`WeightedMeanNotCalibrated`).
- **The prefix is `"Cal"`.** The docstring of `calibrate_metrics` says new keys
  are prefixed with `"Calibrated"`. The code (line 20) writes `"Cal"`.
- **Running the step twice can change a document again.** This happens only
  when a `"Cal…"` name strips to a key that is in the table
  (`RecalibrationExample`). Otherwise each group's update is idempotent
  (`UpdateGroupIdempotent`), and so is the whole step: a second run leaves
  the metrics as the first left them and ends the same way
  (`CalibrateSlideIdempotent`).

## Model

| member | source | states |
|---|---|---|
| Text.RemoveAll | utils/Calibration.py:17 | deleting every occurrence of a substring never makes a string longer |
| Text.RemoveAllAbsent | utils/Calibration.py:17 | a string that does not contain the pattern comes back unchanged |
| Text.RemoveAllFirst | utils/Calibration.py:17 | the scan keeps everything before the first occurrence, deletes that occurrence and carries on after it; with RemoveAllAbsent this fixes the result on every input |
| Text.RemoveAllShrinks | utils/Calibration.py:17 | a string that contains the pattern loses at least the pattern's length |
| Text.RemoveAllUnchangedIff | utils/Calibration.py:17 | the result equals the input if and only if the pattern does not occur |
| Text.RemoveAllMissingChar | utils/Calibration.py:17 | a string lacking any one character of the pattern comes back unchanged |
| Text.RemoveAllKeepsPrefix | utils/Calibration.py:17 | a prefix with no character equal to the pattern's first one is kept as it is |
| Calibration.Strip | utils/Calibration.py:16-17 | the stripped name is never longer than the metric name |
| Calibration.StripUnchangedIff | utils/Calibration.py:16-17 | a name is left unchanged if and only if it contains neither "Mean_" nor "Std_" |
| Calibration.StripCalTag | utils/Calibration.py:16-20 | stripping "Cal" + m gives "Cal" + strip(m) |
| Calibration.StripNoUnderscore | utils/Calibration.py:16-17 | a name without "_" is its own lookup name |
| Calibration.StripStdTagged | utils/Calibration.py:16-17 | "Std_" + bare strips to bare, so "Std_bar" is looked up as "bar" |
| Calibration.StripInnerMean | utils/Calibration.py:16-17 | "Mean_" is deleted in the middle of a name: head + "Mean_" + bare strips to head + bare |
| Calibration.StripOrder | utils/Calibration.py:17 | "Mean_" goes first: "StMean_d_" + bare strips to bare, while the opposite order would leave "Std_" + bare |
| Calibration.OrderMeanScan | utils/Calibration.py:17 | deleting "Mean_" from "StMean_d_" + bare joins the pieces into "Std_" + bare |
| Calibration.OrderStdScan | utils/Calibration.py:17 | a "Std_" scan run first finds nothing to delete in "StMean_d_" + bare |
| Calibration.StripSinglePass | utils/Calibration.py:17 | each deletion is a single scan: "MeMean_an_" + bare strips to "Mean_" + bare, which still holds a "Mean_" |
| Calibration.SinglePassFirstScan | utils/Calibration.py:17 | the "Mean_" scan of "MeMean_an_" + bare leaves "Mean_" + bare |
| Calibration.CalName | utils/Calibration.py:20 | a calibrated name is "Cal" followed by the whole metric name |
| Calibration.CalNameOf | utils/Calibration.py:20 | any name that starts with "Cal" is the calibrated name of its remainder |
| Calibration.CalTagInjective | utils/Calibration.py:20-21 | distinct metrics get distinct calibrated names, so no calibrated entry overwrites another |
| Calibration.CalibrationKey | utils/Calibration.py:20-22 | the key starts with the prefix, is no longer than the prefix plus the name, and is exactly prefix + name when the name holds no tag |
| Calibration.Scale | utils/Calibration.py:20 | `val * slope`, the exact product of the metric's value and its slope; CalibrateMetricsEntries and UpdateGroupEntries state that every calibrated value is this product |
| Calibration.CalibratedValue | utils/Calibration.py:20-22 | the value of the entry for a metric whose key is in the table: its value times the slope stored under that same key; CalibrateMetricsEntries states it as the entry's value |
| Calibration.CalibrateMetrics | utils/Calibration.py:19-23 | `calibrate_metrics`: a new map, with one calibrated entry per matching metric and nothing else; its contract is stated by CalibrateMetricsEntries (which names exist and their values) and CalibratedSize (how many) |
| Calibration.CalNames | utils/Calibration.py:19-21 | "Cal" + m is a candidate name if and only if m is a metric of the group |
| Calibration.CalibrateMetricsEntries | utils/Calibration.py:19-23 | "Cal" + m is in the result if and only if m is in the group and its key (one key for both the test and the lookup) is in the table; its value is the metric's value times that slope; every result name starts with "Cal" |
| Calibration.CalTagImageSize | utils/Calibration.py:19-21 | prefixing "Cal" to a set of names keeps its size |
| Calibration.CalibratedSize | utils/Calibration.py:19-23 | the result has exactly one entry per matching metric |
| Calibration.UpdateGroup | utils/Calibration.py:44-46 | `group.update(calibrate_metrics(group, …))`: the calibrated map is computed from the group before the merge and overrides entries of the same name; its contract is stated by UpdateGroupEntries |
| Calibration.UpdateGroupEntries | utils/Calibration.py:44-46 | after the merge the group has its old names plus the calibrated ones; an old entry keeps its value unless a calibrated entry has its name; each calibrated value comes from the group as it was before the merge |
| Calibration.UpdateGroupOrigins | utils/Calibration.py:44-46 | every entry after the merge was in the group before, or is "Cal" + a metric that was |
| Calibration.UpdateGroupNoMatch | utils/Calibration.py:44-46 | a group with no metric in the table is left unchanged |
| Calibration.UpdateGroupSingle | utils/Calibration.py:44-46 | a one-metric group with a slope gains exactly its calibrated entry |
| Calibration.RecalibrateSameEntries | utils/Calibration.py:19-23 | if no "Cal…" name has a key in the table, calibrating the updated group gives the same entries as calibrating the original |
| Calibration.UpdateGroupIdempotent | utils/Calibration.py:44-46 | under that condition a second run leaves the group as the first run left it |
| Calibration.RecalibrationExample | utils/Calibration.py:44-46 | without that condition a second run can add "CalCalx", computed from the first run's "Calx" |
| SlideCalibration.GroupOrEmpty | utils/Calibration.py:44 | `metrics.get(name, {})` (line 44, and line 49 for the global group): the stored group, or an empty group when the name is missing; it is used in CalibrateSlideMetrics, whose ensures state the result |
| SlideCalibration.CalibrateSlide | utils/Calibration.py:43-51 | KeyError("metrics") if and only if the field is absent; KeyError for the weighted group if and only if it is absent; KeyError for the global group if and only if only that group is absent; completion if and only if both are present; the document is untouched unless the weighted update ran |
| SlideCalibration.CalibrateSlideGroups | utils/Calibration.py:43-51 | no group is added or removed; groups other than the two named ones are untouched; the weighted group is merged with its calibration under "CTA.SaliencyWtdMean_"; when the call completes, the global group is merged with its calibration under "CTA.Global_" |
| SlideCalibration.SlideDocument.constructor | utils/Calibration.py:36-37 | the document holds the loaded "metrics" field |
| SlideCalibration.SlideDocument.CalibrateSlideMetrics | utils/Calibration.py:43-51 | the in-place steps (get, calibrate, index, update, first the weighted group, then the global one) leave the field and the outcome that CalibrateSlide gives |
| SlideCalibration.CalibrateSlideIdempotent | utils/Calibration.py:43-51 | when no "Cal…" name has a key in the table under either prefix, calibrating the result again gives the same metrics and the same outcome |
| SlideCalibration.CalibrateSlideKeepsEntries | utils/Calibration.py:44-51 | no entry of any group is removed; an entry keeps its value unless a calibrated entry of the same name replaces it |
| SlideCalibration.GlobalStdCalibrated | utils/Calibration.py:49-51 | a global "Std_" + bare of v with slope s under "CTA.Global_" + bare gains "CalStd_" + bare = v·s, and nothing else changes ("Std_bar" = 10 at 0.5 gives "CalStd_bar" = 5) |
| SlideCalibration.WeightedMeanNotCalibrated | utils/Calibration.py:44-46 | a weighted "SaliencyWtdMean_" + bare is not calibrated by the entry "CTA.SaliencyWtdMean_" + bare, and the document is unchanged |
| SlideCalibration.MissingGlobalKeepsWeighted | utils/Calibration.py:44-51 | without a global group the call ends in KeyError, and the weighted group of the loaded document keeps its new calibrated entry (nothing is written, as the error comes before line 55) |

## Left out

- Reading and writing the JSON files and the `indent=4` formatting (lines
  36-41 and 54-55): the document's "metrics" field is the constructor's
  argument, and the table is a parameter.
- The `__main__` block (lines 59-76): the `input()` prompt, the `rglob`
  discovery, the `roiMeta` filter, the output file naming and the `print`
  messages (line 57). These are console and file-system I/O.
- Floating-point rounding: values and slopes are `real`, so products are exact.
- Table entries without a `slope` field, and values that are not numbers: the
  table is a map from key to slope, and a group maps names to `real`. The
  KeyError or type error these raise in `utils/Calibration.py` is not modelled.
- Top-level document fields other than `"metrics"`, and a `"metrics"` value or
  group that is not a dictionary: the document is its `"metrics"` field, as a
  map from group name to group.
- Aliasing: groups are values, so the model cannot express two names sharing
  one dictionary. A document loaded from JSON never has them.
- The order of keys in the output JSON: maps are unordered.
