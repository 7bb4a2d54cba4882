/**
 * The calibration thresholds of static/scripts/mediapipe.js
 * (`calibrationData`): eight eye blendshapes, each starting at 0, raised to
 * the highest score seen while the user looks at the calibration dots, then
 * widened by a 15% margin.
 */
module Calibration {
  import opened Wrappers
  import opened Focus

  /** The blendshapes that take part in calibration and in the focus test. */
  const CalibrationKeys: set<string> :=
    {"eyeLookDownLeft", "eyeLookDownRight", "eyeLookInLeft", "eyeLookInRight",
     "eyeLookOutLeft", "eyeLookOutRight", "eyeLookUpLeft", "eyeLookUpRight"}

  /** Lines 93-102: every key at 0. */
  function InitialThresholds(): (t: map<string, real>)
    ensures t.Keys == CalibrationKeys
    ensures forall k :: k in t ==> t[k] == 0.0
  {
    map k | k in CalibrationKeys :: 0.0
  }

  predicate NonNegative(t: map<string, real>)
  {
    forall k :: k in t ==> t[k] >= 0.0
  }

  /** Lines 184-188 for one blendshape: a calibrated name takes the score when it is strictly greater. */
  function AbsorbOne(t: map<string, real>, c: Category): (r: map<string, real>)
    ensures r.Keys == t.Keys
    ensures forall k :: k in t ==> r[k] == (if k == c.categoryName && c.score > t[k] then c.score else t[k])
  {
    if c.categoryName in t && c.score > t[c.categoryName] then t[c.categoryName := c.score] else t
  }

  /** Lines 183-189: the blendshapes of one sample absorbed in order; thresholds never decrease. */
  function Absorb(t: map<string, real>, categories: seq<Category>): (r: map<string, real>)
    ensures r.Keys == t.Keys
    ensures forall k :: k in t ==> t[k] <= r[k]
    decreases |categories|
  {
    if categories == [] then t
    else AbsorbOne(Absorb(t, categories[..|categories| - 1]), categories[|categories| - 1])
  }

  /**
   * After a sample, each threshold is the maximum of its earlier value and the
   * scores the sample gave that name: no smaller than either, and equal to one
   * of them.
   */
  lemma {:induction false} AbsorbIsMaximum(t: map<string, real>, categories: seq<Category>)
    ensures forall i :: 0 <= i < |categories| && categories[i].categoryName in t ==>
      categories[i].score <= Absorb(t, categories)[categories[i].categoryName]
    ensures forall k :: k in t ==>
      Absorb(t, categories)[k] == t[k] ||
      exists i :: 0 <= i < |categories| && categories[i].categoryName == k &&
                  categories[i].score == Absorb(t, categories)[k]
    decreases |categories|
  {
    if categories != [] {
      var n := |categories| - 1;
      var front := categories[..n];
      AbsorbIsMaximum(t, front);
      var before := Absorb(t, front);
      var r := Absorb(t, categories);
      assert r == AbsorbOne(before, categories[n]);
      forall i | 0 <= i < |categories| && categories[i].categoryName in t
        ensures categories[i].score <= r[categories[i].categoryName]
      {
        if i < n {
          assert front[i] == categories[i];
        }
      }
      forall k | k in t
        ensures r[k] == t[k] ||
          exists i :: 0 <= i < |categories| && categories[i].categoryName == k && categories[i].score == r[k]
      {
        if r[k] != before[k] {
          assert categories[n].categoryName == k && categories[n].score == r[k];
        } else if before[k] != t[k] {
          var i :| 0 <= i < n && front[i].categoryName == k && front[i].score == before[k];
          assert categories[i] == front[i];
        }
      }
    }
  }

  /** The whole calibration walk before the margin: each sample absorbed in turn. */
  function AbsorbAll(t: map<string, real>, samples: seq<seq<Category>>): (r: map<string, real>)
    ensures r.Keys == t.Keys
    ensures forall k :: k in t ==> t[k] <= r[k]
    decreases |samples|
  {
    if samples == [] then t
    else Absorb(AbsorbAll(t, samples[..|samples| - 1]), samples[|samples| - 1])
  }

  /** Every calibrated score of every sample is at most its threshold at the end of the walk. */
  lemma {:induction false} AbsorbAllCoversSamples(t: map<string, real>, samples: seq<seq<Category>>, j: nat)
    requires j < |samples|
    ensures forall c :: c in samples[j] && c.categoryName in t ==> c.score <= AbsorbAll(t, samples)[c.categoryName]
    decreases |samples|
  {
    var n := |samples| - 1;
    var before := AbsorbAll(t, samples[..n]);
    AbsorbIsMaximum(before, samples[n]);
    if j < n {
      AbsorbAllCoversSamples(t, samples[..n], j);
      assert samples[..n][j] == samples[j];
    } else {
      forall c | c in samples[j] && c.categoryName in t
        ensures c.score <= AbsorbAll(t, samples)[c.categoryName]
      {
        var i :| 0 <= i < |samples[n]| && samples[n][i] == c;
      }
    }
  }

  /**
   * Each threshold at the end of the walk is its starting value or a score
   * some sample gave that name: together with AbsorbAllCoversSamples, the
   * maximum of the two.
   */
  lemma {:induction false} AbsorbAllAttained(t: map<string, real>, samples: seq<seq<Category>>)
    ensures forall k :: k in t ==>
      AbsorbAll(t, samples)[k] == t[k] ||
      exists j, i :: 0 <= j < |samples| && 0 <= i < |samples[j]| &&
        samples[j][i].categoryName == k && samples[j][i].score == AbsorbAll(t, samples)[k]
    decreases |samples|
  {
    if samples != [] {
      var n := |samples| - 1;
      var front := samples[..n];
      AbsorbAllAttained(t, front);
      var before := AbsorbAll(t, front);
      var r := AbsorbAll(t, samples);
      assert r == Absorb(before, samples[n]);
      AbsorbIsMaximum(before, samples[n]);
      forall k | k in t
        ensures r[k] == t[k] ||
          exists j, i :: 0 <= j < |samples| && 0 <= i < |samples[j]| &&
            samples[j][i].categoryName == k && samples[j][i].score == r[k]
      {
        if r[k] != before[k] {
          var i :| 0 <= i < |samples[n]| && samples[n][i].categoryName == k && samples[n][i].score == r[k];
          assert samples[n][i].categoryName == k && samples[n][i].score == r[k];
        } else if before[k] != t[k] {
          var j, i :| 0 <= j < n && 0 <= i < |front[j]| &&
            front[j][i].categoryName == k && front[j][i].score == before[k];
          assert samples[j] == front[j];
        }
      }
    }
  }

  /** Lines 204-207: every threshold raised by 15% of itself. */
  function WithMargin(t: map<string, real>): (r: map<string, real>)
    ensures r.Keys == t.Keys
    ensures forall k :: k in t ==> r[k] == 1.15 * t[k]
    ensures NonNegative(t) ==> NonNegative(r) && forall k :: k in t ==> t[k] <= r[k]
    ensures forall j, k :: j in t && k in t && t[j] <= t[k] ==> r[j] <= r[k]
    ensures forall j, k :: j in t && k in t && t[j] < t[k] ==> r[j] < r[k]
  {
    map k | k in t :: t[k] + t[k] * 0.15
  }

  /** A map with the same keys and every value raised by 15% of itself is the margin map. */
  lemma MarginOf(t: map<string, real>, r: map<string, real>)
    requires r.Keys == t.Keys
    requires forall k :: k in r ==> r[k] == t[k] + t[k] * 0.15
    ensures r == WithMargin(t)
  {
    var m := WithMargin(t);
    assert forall k :: k in m ==> m[k] == r[k];
  }

  /**
   * With non-negative starting thresholds, a face that shows exactly one of
   * the calibration samples again is classified as in focus.
   */
  lemma CalibratedSampleReadsAsFocus(t: map<string, real>, samples: seq<seq<Category>>, j: nat)
    requires NonNegative(t) && j < |samples|
    ensures ClassifyFocus(Some([samples[j]]), WithMargin(AbsorbAll(t, samples))) == Focus
  {
    AbsorbAllCoversSamples(t, samples, j);
  }

  /**
   * The thresholds are never reset, so a second walk starts from the first
   * walk's margined values and the 15% margin compounds: every calibrated
   * score of the first walk ends at least 1.15 × 1.15 times over.
   */
  lemma SecondWalkCompoundsMargin(t: map<string, real>, first: seq<seq<Category>>,
                                  second: seq<seq<Category>>, j: nat)
    requires NonNegative(t) && j < |first|
    ensures forall c :: c in first[j] && c.categoryName in t ==>
      1.15 * 1.15 * c.score <=
        WithMargin(AbsorbAll(WithMargin(AbsorbAll(t, first)), second))[c.categoryName]
  {
    AbsorbAllCoversSamples(t, first, j);
  }

  /** The global `calibrationData` object, updated in place. */
  class CalibrationData {
    var thresholds: map<string, real>

    ghost predicate Valid()
      reads this
    {
      thresholds.Keys == CalibrationKeys && NonNegative(thresholds)
    }

    constructor ()
      ensures Valid() && thresholds == InitialThresholds()
    {
      thresholds := InitialThresholds();
    }

    /** The `forEach` of lines 183-189 over one sample's blendshapes. */
    method RecordSample(categories: seq<Category>)
      requires Valid()
      modifies this
      ensures Valid()
      ensures thresholds == Absorb(old(thresholds), categories)
    {
      for i := 0 to |categories|
        invariant thresholds == Absorb(old(thresholds), categories[..i])
      {
        assert categories[..i + 1][..i] == categories[..i];
        var item := categories[i];
        if item.categoryName in thresholds {
          if item.score > thresholds[item.categoryName] {
            thresholds := thresholds[item.categoryName := item.score];
          }
        }
      }
      assert categories[..|categories|] == categories;
    }

    /** The `for..in` of lines 205-207: each threshold plus 15% of itself. */
    method ApplyMargin()
      requires Valid()
      modifies this
      ensures Valid()
      ensures thresholds == WithMargin(old(thresholds))
    {
      var pending := thresholds.Keys;
      while pending != {}
        invariant thresholds.Keys == old(thresholds).Keys
        invariant pending <= thresholds.Keys
        invariant forall k :: k in thresholds && k !in pending ==>
          thresholds[k] == old(thresholds)[k] + old(thresholds)[k] * 0.15
        invariant forall k :: k in pending ==> thresholds[k] == old(thresholds)[k]
        decreases pending
      {
        var data :| data in pending;
        thresholds := thresholds[data := thresholds[data] + thresholds[data] * 0.15];
        pending := pending - {data};
      }
      MarginOf(old(thresholds), thresholds);
    }

    /**
     * The calibration walk: one sample per calibration dot (the first face's
     * blendshapes), then the margin. A walk cut short simply has fewer samples;
     * the margin is applied either way.
     */
    method Calibrate(samples: seq<seq<Category>>)
      requires Valid()
      modifies this
      ensures Valid()
      ensures thresholds == WithMargin(AbsorbAll(old(thresholds), samples))
    {
      for index := 0 to |samples|
        invariant Valid()
        invariant thresholds == AbsorbAll(old(thresholds), samples[..index])
      {
        assert samples[..index + 1][..index] == samples[..index];
        RecordSample(samples[index]);
      }
      assert samples[..|samples|] == samples;
      ApplyMargin();
    }
  }
}
