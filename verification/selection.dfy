/**
  Highest-probability selection over a list of classification hypotheses.

  The list is scanned left to right keeping a running best entry, which is
  replaced only by an entry of strictly greater probability; so among entries
  tied at the maximum the first one wins. An empty list yields the sentinel
  `(UNKNOWN, 0.0)`.
 */
module Selection {
  import opened Labels

  /** One (category, probability) hypothesis; the probability is not range-checked. */
  datatype Classification = Classification(category: Label, probability: real)

  /** The "no information" result for an empty hypothesis list. */
  const Sentinel: Classification := Classification(UNKNOWN, 0.0)

  /**
    Entry `i` has maximal probability in `cs`, and every entry before it has a
    strictly smaller probability: it is the first maximum.
   */
  ghost predicate IsFirstMaximum(cs: seq<Classification>, i: int)
  {
    && 0 <= i < |cs|
    && (forall j :: 0 <= j < |cs| ==> cs[j].probability <= cs[i].probability)
    && (forall j :: 0 <= j < i ==> cs[j].probability < cs[i].probability)
  }

  /**
    Index of the running best after scanning all of `cs`: the scan of the prefix,
    replaced by the last entry only when that entry's probability is strictly greater.
   */
  function BestIndex(cs: seq<Classification>): (i: nat)
    requires |cs| > 0
    ensures IsFirstMaximum(cs, i)
  {
    if |cs| == 1 then
      0
    else
      var b := BestIndex(cs[..|cs| - 1]);
      assert cs[..|cs| - 1][b] == cs[b];
      if cs[b].probability < cs[|cs| - 1].probability then |cs| - 1 else b
  }

  /**
    The hypothesis of highest probability, the first one on a tie; the sentinel
    `(UNKNOWN, 0.0)` on an empty list. Category and probability always come
    from the same entry of `cs`.
   */
  function GetHighestProbClassification(cs: seq<Classification>): (r: Classification)
    ensures |cs| == 0 ==> r == Sentinel
    ensures |cs| > 0 ==> exists i :: IsFirstMaximum(cs, i) && r == cs[i]
  {
    if |cs| == 0 then Sentinel else cs[BestIndex(cs)]
  }

  /**
    The category of the highest-probability hypothesis, the first one on a tie;
    `UNKNOWN` on an empty list.
   */
  function GetHighestProbLabel(cs: seq<Classification>): (l: Label)
    ensures |cs| == 0 ==> l == UNKNOWN
    ensures |cs| > 0 ==> exists i :: IsFirstMaximum(cs, i) && l == cs[i].category
  {
    if |cs| == 0 then UNKNOWN else cs[BestIndex(cs)].category
  }

  /** The first maximum of a non-empty list is unique. */
  lemma FirstMaximumUnique(cs: seq<Classification>, i: int, k: int)
    requires IsFirstMaximum(cs, i) && IsFirstMaximum(cs, k)
    ensures i == k
  {
    assert cs[i].probability == cs[k].probability;
  }

  /**
    The label selector reports the category of the classification selector, on
    every input: both contracts pick the first maximum, and it is unique.
   */
  lemma LabelAgreesWithClassification(cs: seq<Classification>)
    ensures GetHighestProbLabel(cs) == GetHighestProbClassification(cs).category
    ensures |cs| > 0 ==> exists i :: 0 <= i < |cs|
                                   && GetHighestProbLabel(cs) == cs[i].category
                                   && GetHighestProbClassification(cs) == cs[i]
  {
    if |cs| > 0 {
      var l, c := GetHighestProbLabel(cs), GetHighestProbClassification(cs);
      var i :| IsFirstMaximum(cs, i) && l == cs[i].category;
      var k :| IsFirstMaximum(cs, k) && c == cs[k];
      FirstMaximumUnique(cs, i, k);
      assert l == c.category;
    }
  }

  /**
    When one entry's probability is strictly greater than every other entry's,
    both selectors return that entry.
   */
  lemma UniqueMaximumSelected(cs: seq<Classification>, m: int)
    requires 0 <= m < |cs|
    requires forall j :: 0 <= j < |cs| && j != m ==> cs[j].probability < cs[m].probability
    ensures GetHighestProbClassification(cs) == cs[m]
    ensures GetHighestProbLabel(cs) == cs[m].category
  {
  }

  /**
    When entries `i < k` are both of maximal probability, entry `k` is never the
    one selected: the earlier of tied entries wins.
   */
  lemma TieGoesToEarlier(cs: seq<Classification>, i: int, k: int)
    requires 0 <= i < k < |cs|
    requires forall j :: 0 <= j < |cs| ==> cs[j].probability <= cs[i].probability
    requires cs[k].probability == cs[i].probability
    ensures BestIndex(cs) != k
    ensures BestIndex(cs) <= i
  {
  }

  /**
    The scan seeded with the sentinel `(UNKNOWN, 0.0)` instead of the first
    entry: it keeps the sentinel until some entry's probability exceeds 0.
   */
  function SentinelSeededScan(cs: seq<Classification>): (r: Classification)
    ensures r == Sentinel || r in cs
  {
    if |cs| == 0 then
      Sentinel
    else
      var b := SentinelSeededScan(cs[..|cs| - 1]);
      if b.probability < cs[|cs| - 1].probability then cs[|cs| - 1] else b
  }

  /**
    The sentinel-seeded scan returns the first maximum when that maximum is
    positive, and the sentinel otherwise.
   */
  lemma {:induction false} SentinelSeededScanShape(cs: seq<Classification>)
    requires |cs| > 0
    ensures SentinelSeededScan(cs) ==
            (if 0.0 < cs[BestIndex(cs)].probability then cs[BestIndex(cs)] else Sentinel)
  {
    if |cs| > 1 {
      var p := cs[..|cs| - 1];
      SentinelSeededScanShape(p);
      assert p[BestIndex(p)] == cs[BestIndex(p)];
    }
  }

  /**
    Whenever some hypothesis has a positive probability, seeding the scan with the
    sentinel and seeding it with the first entry select the same hypothesis.
   */
  lemma SentinelSeedAgrees(cs: seq<Classification>, j: int)
    requires 0 <= j < |cs| && 0.0 < cs[j].probability
    ensures SentinelSeededScan(cs) == GetHighestProbClassification(cs)
  {
    SentinelSeededScanShape(cs);
  }

  /** On a list whose only probability is 0, the two seedings disagree. */
  lemma SentinelSeedDiffers()
    ensures SentinelSeededScan([Classification(CAR, 0.0)]) == Sentinel
    ensures GetHighestProbClassification([Classification(CAR, 0.0)]) == Classification(CAR, 0.0)
  {
  }

  /** The three lists used by the selection tests: empty, a unique maximum, and a tie at the maximum. */
  lemma SelectionExamples()
    ensures GetHighestProbLabel([]) == UNKNOWN
    ensures GetHighestProbClassification([]) == Classification(UNKNOWN, 0.0)
    ensures GetHighestProbClassification(
              [Classification(CAR, 0.5), Classification(TRUCK, 0.8), Classification(BUS, 0.7)])
            == Classification(TRUCK, 0.8)
    ensures GetHighestProbLabel(
              [Classification(CAR, 0.5), Classification(TRUCK, 0.8), Classification(BUS, 0.7)])
            == TRUCK
    ensures GetHighestProbClassification(
              [Classification(CAR, 0.8), Classification(TRUCK, 0.8), Classification(BUS, 0.7)])
            == Classification(CAR, 0.8)
    ensures GetHighestProbLabel(
              [Classification(CAR, 0.8), Classification(TRUCK, 0.8), Classification(BUS, 0.7)])
            == CAR
  {
  }
}
