# Object classification decisions (perception_utils)

A Dafny model of the classification utility of `perception_utils`: given the
(label, probability) hypotheses a perception component produced for one object,
pick the most probable label with a deterministic tie-break, and convert between
a label and its canonical upper-case name.

The implementation header `perception_utils/object_classification.hpp` is not
part of this model; the behaviour modelled is the one fixed by the unit tests in
`common/perception_utils/test/src/test_object_classification.cpp`.

- `labels.dfy`, module `Labels`: the closed eight-value `Label` enumeration
  (`UNKNOWN`, `CAR`, `TRUCK`, `BUS`, `TRAILER`, `MOTORCYCLE`, `BICYCLE`,
  `PEDESTRIAN`), `LabelToString` (`convertLabelToString` on a label) and
  `ToLabel` (`toLabel`), which returns `Err(InvalidLabelName(name))` where the
  source throws `std::runtime_error`. Each name is written once, in
  `LabelToString`; `ToLabel` searches the table of all labels for it.
- `selection.dfy`, module `Selection`: the `Classification` record (the
  message's `label` field is called `category`, since `label` is a Dafny
  keyword; its constructor plays the part of the test helper
  `createObjectClassification`), the first-maximum argmax `BestIndex`, and
  `GetHighestProbClassification` / `GetHighestProbLabel`
  (`getHighestProbClassification` / `getHighestProbLabel`). Probabilities are
  `real`: the utility only compares them with `<` and passes them through.
- `conversion.dfy`, module `Conversion`: `ClassificationToString` and
  `ClassificationsToString` (the two other overloads of `convertLabelToString`),
  `ToObjectClassification` and `ToObjectClassifications`.

Selection is a left-to-right scan that replaces the running best only on a
strictly greater probability, so among tied maxima the first entry wins. The
scan is seeded with the first entry, so the result is always an entry of the
list (label and probability from the same entry). A scan seeded instead with the
sentinel `(UNKNOWN, 0.0)` is modelled as `SentinelSeededScan`: it agrees with the
first-entry scan whenever some probability is positive, which covers every list
the tests use, and differs on lists whose probabilities are all at most 0.

## Model

| member | source | states |
|---|---|---|
| Labels.LabelToString | common/perception_utils/test/src/test_object_classification.cpp:143-150 | each label's canonical name is a non-empty word of upper-case letters; it is injective (`LabelNamesInjective`) and inverted by `ToLabel` (`LabelRoundTrip`) |
| Labels.ToLabel | common/perception_utils/test/src/test_object_classification.cpp:111-119 | succeeds exactly on the canonical names, returning the label whose name is the input; every other string, "" included, fails with `InvalidLabelName` of that string |
| Labels.LabelRoundTrip | common/perception_utils/test/src/test_object_classification.cpp:143-150 | for every label, parsing its name gives back the label |
| Labels.ToLabelIffName | common/perception_utils/test/src/test_object_classification.cpp:111-118 | `ToLabel(name)` is `Ok(l)` if and only if `name` is the name of `l` |
| Labels.LabelNamesInjective | common/perception_utils/test/src/test_object_classification.cpp:143-150 | two labels with the same name are the same label |
| Labels.CanonicalNames | common/perception_utils/test/src/test_object_classification.cpp:109-120 | each of the eight canonical strings parses to its label, and "" is rejected |
| Selection.BestIndex | common/perception_utils/test/src/test_object_classification.cpp:56-64 | the scan ends on an entry of maximal probability before which every entry is strictly less probable |
| Selection.GetHighestProbClassification | common/perception_utils/test/src/test_object_classification.cpp:72-99 | `(UNKNOWN, 0.0)` on an empty list; otherwise exactly the first entry of maximal probability, label and probability together |
| Selection.GetHighestProbLabel | common/perception_utils/test/src/test_object_classification.cpp:40-64 | `UNKNOWN` on an empty list; otherwise the label of the first entry of maximal probability |
| Selection.FirstMaximumUnique | common/perception_utils/test/src/test_object_classification.cpp:56-64 | a list has at most one first maximum, so the selection is determined by the list |
| Selection.LabelAgreesWithClassification | common/perception_utils/test/src/test_object_classification.cpp:35-100 | on every list the label selector returns the label of the classification selector, both taken from one entry |
| Selection.UniqueMaximumSelected | common/perception_utils/test/src/test_object_classification.cpp:46-54 | an entry strictly more probable than all others is what both selectors return |
| Selection.TieGoesToEarlier | common/perception_utils/test/src/test_object_classification.cpp:90-99 | when a later entry ties a maximal earlier one, the later one is never selected |
| Selection.SentinelSeededScan | common/perception_utils/test/src/test_object_classification.cpp:72-77 | the scan seeded with `(UNKNOWN, 0.0)` returns the sentinel or an entry of the list |
| Selection.SentinelSeededScanShape | common/perception_utils/test/src/test_object_classification.cpp:72-99 | the sentinel-seeded scan returns the first maximum when it is positive and the sentinel otherwise |
| Selection.SentinelSeedAgrees | common/perception_utils/test/src/test_object_classification.cpp:79-99 | when some probability is positive, both seedings select the same hypothesis |
| Selection.SentinelSeedDiffers | common/perception_utils/test/src/test_object_classification.cpp:72-77 | on `[(CAR, 0.0)]` the sentinel seeding yields `(UNKNOWN, 0.0)` while the first-entry seeding yields `(CAR, 0.0)` |
| Selection.SelectionExamples | common/perception_utils/test/src/test_object_classification.cpp:40-99 | empty list gives `UNKNOWN` / `(UNKNOWN, 0.0)`; `[(CAR,0.5),(TRUCK,0.8),(BUS,0.7)]` gives `(TRUCK, 0.8)`; `[(CAR,0.8),(TRUCK,0.8),(BUS,0.7)]` gives `(CAR, 0.8)` |
| Conversion.ClassificationToString | common/perception_utils/test/src/test_object_classification.cpp:153-158 | the result parses back to the hypothesis's label |
| Conversion.ClassificationsToString | common/perception_utils/test/src/test_object_classification.cpp:160-168 | the result parses back to the selected label; it names the first maximum's label, and is "UNKNOWN" on an empty list |
| Conversion.ToObjectClassification | common/perception_utils/test/src/test_object_classification.cpp:122-127 | succeeds exactly on canonical names, with the named label and the given probability; otherwise `InvalidLabelName` |
| Conversion.ToObjectClassifications | common/perception_utils/test/src/test_object_classification.cpp:128-133 | succeeds exactly on canonical names with a one-element list holding the named label and the given probability; otherwise `InvalidLabelName` |
| Conversion.ToObjectClassificationRoundTrip | common/perception_utils/test/src/test_object_classification.cpp:122-127 | building a hypothesis from a label's name gives that label and probability, and naming it gives the name back |
| Conversion.ClassificationsToStringSingleton | common/perception_utils/test/src/test_object_classification.cpp:153-168 | on a one-element list the list overload and the single-hypothesis overload agree |
| Conversion.ConversionExamples | common/perception_utils/test/src/test_object_classification.cpp:122-168 | `("CAR", 0.7)` builds `(CAR, 0.7)` and `[(CAR, 0.7)]`; `(CAR, 0.8)` is named "CAR"; `[(CAR,0.5),(TRUCK,0.8),(BUS,0.7)]` is named "TRUCK" |

## Left out

- The test harness, its `EXPECT_*` macros and the `epsilon` tolerance: probabilities are exact `real`s and no arithmetic is done on them.
- The message type `autoware_auto_perception_msgs::msg::ObjectClassification` and the `uint8` codes of its label constants: the label is an abstract eight-constructor datatype, so a label code outside the eight values cannot be expressed and `convertLabelToString` on one is not modelled.
- Labels.ToLabel: rejecting every non-canonical string, not only "", is an assumption; the tests only show "" failing.
- Conversion.ToObjectClassifications: the one-element length is an assumption; the tests only check element 0.
- Selection.GetHighestProbClassification: the tests do not fix whether the scan is seeded with the first entry or with `(UNKNOWN, 0.0)`; the first-entry seeding is modelled, and `SentinelSeedAgrees` shows the two agree whenever some probability is positive. On a list whose probabilities are all at most 0 the model returns that list's first maximum, where a `(UNKNOWN, 0.0)` seeding would return the sentinel.
- Selection.GetHighestProbLabel: makes the same first-entry seeding choice, so on a list whose probabilities are all at most 0 it returns the first maximum's label (e.g. `CAR` for `[(CAR, -1.0)]`), where a `(UNKNOWN, 0.0)` seeding would return `UNKNOWN`. Both selectors share the scan `BestIndex`, so `LabelAgreesWithClassification` holds by construction of the model rather than as evidence about the program.
- Conversion.ClassificationsToString: the "UNKNOWN" result on an empty list is derived from the selection sentinel and is not tested; the function also inherits the first-entry seeding choice, so e.g. `[(CAR, 0.0)]` is named "CAR" where a `(UNKNOWN, 0.0)` seeding would give "UNKNOWN".
- Floating-point semantics (NaN, rounding of `double`) are not modelled.
