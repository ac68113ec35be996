/**
  The closed set of object categories a perception hypothesis can carry, and the
  conversion between a category and its canonical upper-case name.

  The name of each label is defined once, in `LabelToString`; `ToLabel` inverts
  that mapping by searching the table of all labels, so the two directions can
  never disagree.
 */
module Labels {

  /** The eight object categories; no other value is a label. */
  datatype Label = UNKNOWN | CAR | TRUCK | BUS | TRAILER | MOTORCYCLE | BICYCLE | PEDESTRIAN

  /** The single error kind of this utility: a name that is not a canonical label name. */
  datatype LabelError = InvalidLabelName(name: string)

  datatype Result<T> = Ok(value: T) | Err(error: LabelError)

  /** Every label, in declaration order. */
  const AllLabels: seq<Label> :=
    [UNKNOWN, CAR, TRUCK, BUS, TRAILER, MOTORCYCLE, BICYCLE, PEDESTRIAN]

  /** The canonical name of a label: a non-empty word of upper-case letters. */
  function LabelToString(l: Label): (s: string)
    ensures |s| > 0
    ensures forall i :: 0 <= i < |s| ==> 'A' <= s[i] <= 'Z'
  {
    match l
    case UNKNOWN => "UNKNOWN"
    case CAR => "CAR"
    case TRUCK => "TRUCK"
    case BUS => "BUS"
    case TRAILER => "TRAILER"
    case MOTORCYCLE => "MOTORCYCLE"
    case BICYCLE => "BICYCLE"
    case PEDESTRIAN => "PEDESTRIAN"
  }

  /** True iff `name` is the canonical name of some label. */
  ghost predicate IsLabelName(name: string)
  {
    exists l: Label :: LabelToString(l) == name
  }

  /** The first label of `labels` whose canonical name is exactly `name`, if any. */
  function FindLabel(name: string, labels: seq<Label>): (r: Result<Label>)
    ensures r.Ok? ==> r.value in labels && LabelToString(r.value) == name
    ensures r.Err? ==> r.error == InvalidLabelName(name)
    ensures r.Err? ==> forall i :: 0 <= i < |labels| ==> LabelToString(labels[i]) != name
  {
    if |labels| == 0 then
      Err(InvalidLabelName(name))
    else if LabelToString(labels[0]) == name then
      Ok(labels[0])
    else
      FindLabel(name, labels[1..])
  }

  /**
    The label whose canonical name is exactly `name` (case-sensitive); any other
    string, the empty one included, is rejected with `InvalidLabelName`.
   */
  function ToLabel(name: string): (r: Result<Label>)
    ensures r.Ok? <==> IsLabelName(name)
    ensures r.Ok? ==> LabelToString(r.value) == name
    ensures r.Err? ==> r.error == InvalidLabelName(name)
  {
    var r := FindLabel(name, AllLabels);
    assert r.Err? ==> forall l: Label :: LabelToString(l) != name by {
      forall l: Label ensures r.Err? ==> LabelToString(l) != name {
        assert l == AllLabels[LabelIndex(l)];
      }
    }
    r
  }

  /** The position of `l` in `AllLabels`. */
  function LabelIndex(l: Label): (i: nat)
    ensures i < |AllLabels| && AllLabels[i] == l
  {
    match l
    case UNKNOWN => 0
    case CAR => 1
    case TRUCK => 2
    case BUS => 3
    case TRAILER => 4
    case MOTORCYCLE => 5
    case BICYCLE => 6
    case PEDESTRIAN => 7
  }

  /** Distinct labels have distinct canonical names. */
  lemma LabelNamesInjective(a: Label, b: Label)
    requires LabelToString(a) == LabelToString(b)
    ensures a == b
  {
  }

  /** Converting a label to its name and back yields the same label. */
  lemma LabelRoundTrip(l: Label)
    ensures ToLabel(LabelToString(l)) == Ok(l)
  {
  }

  /** `ToLabel` and `LabelToString` are inverse: a name parses to a label exactly when it is that label's name. */
  lemma ToLabelIffName(name: string, l: Label)
    ensures ToLabel(name) == Ok(l) <==> LabelToString(l) == name
  {
  }

  /** Each of the eight canonical names parses to its label, and the empty name is an error. */
  lemma CanonicalNames()
    ensures ToLabel("UNKNOWN") == Ok(UNKNOWN)
    ensures ToLabel("CAR") == Ok(CAR)
    ensures ToLabel("TRUCK") == Ok(TRUCK)
    ensures ToLabel("BUS") == Ok(BUS)
    ensures ToLabel("TRAILER") == Ok(TRAILER)
    ensures ToLabel("MOTORCYCLE") == Ok(MOTORCYCLE)
    ensures ToLabel("BICYCLE") == Ok(BICYCLE)
    ensures ToLabel("PEDESTRIAN") == Ok(PEDESTRIAN)
    ensures ToLabel("") == Err(InvalidLabelName(""))
  {
    LabelRoundTrip(UNKNOWN);
    LabelRoundTrip(CAR);
    LabelRoundTrip(TRUCK);
    LabelRoundTrip(BUS);
    LabelRoundTrip(TRAILER);
    LabelRoundTrip(MOTORCYCLE);
    LabelRoundTrip(BICYCLE);
    LabelRoundTrip(PEDESTRIAN);
  }
}
