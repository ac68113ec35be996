/**
  The conveniences built on labels and selection: building hypotheses from a
  label name, and naming the label of one hypothesis or of a whole list.
 */
module Conversion {
  import opened Labels
  import opened Selection

  /** The name of the category of one hypothesis. */
  function ClassificationToString(c: Classification): (s: string)
    ensures ToLabel(s) == Ok(c.category)
  {
    LabelRoundTrip(c.category);
    LabelToString(c.category)
  }

  /**
    The name of the category selected by highest probability (first on a tie);
    "UNKNOWN" for an empty list, by way of the selection sentinel.
   */
  function ClassificationsToString(cs: seq<Classification>): (s: string)
    ensures ToLabel(s) == Ok(GetHighestProbLabel(cs))
    ensures |cs| == 0 ==> s == "UNKNOWN"
    ensures |cs| > 0 ==> exists i :: IsFirstMaximum(cs, i) && s == LabelToString(cs[i].category)
  {
    LabelRoundTrip(GetHighestProbLabel(cs));
    LabelToString(GetHighestProbLabel(cs))
  }

  /**
    The hypothesis with the label named `name` and the given probability; fails
    with `InvalidLabelName` exactly when `name` is not a canonical label name.
   */
  function ToObjectClassification(name: string, probability: real): (r: Result<Classification>)
    ensures r.Ok? <==> IsLabelName(name)
    ensures r.Ok? ==> LabelToString(r.value.category) == name && r.value.probability == probability
    ensures r.Err? ==> r.error == InvalidLabelName(name)
  {
    match ToLabel(name)
    case Ok(l) => Ok(Classification(l, probability))
    case Err(e) => Err(e)
  }

  /**
    A one-element hypothesis list holding `ToObjectClassification(name, probability)`;
    fails exactly when that does.
   */
  function ToObjectClassifications(name: string, probability: real): (r: Result<seq<Classification>>)
    ensures r.Ok? <==> IsLabelName(name)
    ensures r.Ok? ==> (&& |r.value| == 1
                       && LabelToString(r.value[0].category) == name
                       && r.value[0].probability == probability)
    ensures r.Err? ==> r.error == InvalidLabelName(name)
  {
    match ToObjectClassification(name, probability)
    case Ok(c) => Ok([c])
    case Err(e) => Err(e)
  }

  /**
    Building a hypothesis from a label's name and naming it again returns that
    name, and the hypothesis carries the label itself.
   */
  lemma ToObjectClassificationRoundTrip(l: Label, probability: real)
    ensures ToObjectClassification(LabelToString(l), probability) == Ok(Classification(l, probability))
    ensures ClassificationToString(Classification(l, probability)) == LabelToString(l)
  {
  }

  /** On a one-element list the list overload names the category of its only entry, whatever its probability. */
  lemma ClassificationsToStringSingleton(c: Classification)
    ensures ClassificationsToString([c]) == ClassificationToString(c)
  {
  }

  /** The construction and naming examples of the conversion tests. */
  lemma ConversionExamples()
    ensures ToObjectClassification("CAR", 0.7) == Ok(Classification(CAR, 0.7))
    ensures ToObjectClassifications("CAR", 0.7) == Ok([Classification(CAR, 0.7)])
    ensures ToObjectClassification("", 0.7) == Err(InvalidLabelName(""))
    ensures ClassificationToString(Classification(CAR, 0.8)) == "CAR"
    ensures ClassificationsToString(
              [Classification(CAR, 0.5), Classification(TRUCK, 0.8), Classification(BUS, 0.7)])
            == "TRUCK"
  {
    ToObjectClassificationRoundTrip(CAR, 0.7);
    SelectionExamples();
  }
}
