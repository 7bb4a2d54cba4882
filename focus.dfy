/**
 * The focus / no-focus classifier inlined in `eyeFocusRecognition`
 * (static/scripts/mediapipe.js): a face is in focus when none of its
 * calibrated blendshapes scores strictly above its threshold.
 */
module Focus {
  import opened Wrappers

  /** One blendshape of a detected face: its name and its score. */
  datatype Category = Category(categoryName: string, score: real)

  /** The classification handed on as the recognition result's data. */
  datatype FocusLabel = Focus | NoFocus

  /** A blendshape that is calibrated and scores strictly above its threshold. */
  predicate Exceeds(c: Category, thresholds: map<string, real>)
  {
    c.categoryName in thresholds && c.score > thresholds[c.categoryName]
  }

  /** The `filter` of lines 519-521: the blendshapes that exceed their thresholds. */
  function Exceeding(categories: seq<Category>, thresholds: map<string, real>): (r: seq<Category>)
    ensures |r| <= |categories|
    ensures forall c :: c in r <==> c in categories && Exceeds(c, thresholds)
    decreases |categories|
  {
    if categories == [] then []
    else
      var rest := Exceeding(categories[1..], thresholds);
      if Exceeds(categories[0], thresholds) then [categories[0]] + rest else rest
  }

  /**
   * Lines 512-527: 'focus' exactly when some face was detected and no
   * blendshape of the first face exceeds its threshold; 'noFocus' otherwise,
   * including when the blendshape list is missing or empty.
   */
  function ClassifyFocus(faceBlendshapes: Option<seq<seq<Category>>>, thresholds: map<string, real>): (r: FocusLabel)
    ensures r == Focus <==>
      faceBlendshapes.Some? && |faceBlendshapes.value| > 0 &&
      forall c :: c in faceBlendshapes.value[0] ==> !Exceeds(c, thresholds)
  {
    if faceBlendshapes.None? || |faceBlendshapes.value| == 0 then NoFocus
    else
      var shapes := Exceeding(faceBlendshapes.value[0], thresholds);
      if |shapes| == 0 then Focus
      else
        assert shapes[0] in shapes;
        NoFocus
  }

  /** The blendshapes whose names are calibration keys, in order. */
  function Calibrated(categories: seq<Category>, thresholds: map<string, real>): (r: seq<Category>)
    ensures forall c :: c in r <==> c in categories && c.categoryName in thresholds
    decreases |categories|
  {
    if categories == [] then []
    else
      var rest := Calibrated(categories[1..], thresholds);
      if categories[0].categoryName in thresholds then [categories[0]] + rest else rest
  }

  /** Uncalibrated blendshapes never exceed anything: dropping them leaves the filter's result unchanged. */
  lemma {:induction false} ExceedingIgnoresUncalibrated(categories: seq<Category>, thresholds: map<string, real>)
    ensures Exceeding(Calibrated(categories, thresholds), thresholds) == Exceeding(categories, thresholds)
    decreases |categories|
  {
    if categories != [] {
      ExceedingIgnoresUncalibrated(categories[1..], thresholds);
      var c := categories[0];
      var rest := Calibrated(categories[1..], thresholds);
      if c.categoryName in thresholds {
        assert Calibrated(categories, thresholds) == [c] + rest;
        assert ([c] + rest)[1..] == rest;
      }
    }
  }

  /**
   * Two faces whose calibrated blendshapes agree are classified alike,
   * whatever other blendshapes either carries.
   */
  lemma UncalibratedNamesDoNotMatter(face1: seq<Category>, face2: seq<Category>, thresholds: map<string, real>)
    requires Calibrated(face1, thresholds) == Calibrated(face2, thresholds)
    ensures ClassifyFocus(Some([face1]), thresholds) == ClassifyFocus(Some([face2]), thresholds)
  {
  }
}
