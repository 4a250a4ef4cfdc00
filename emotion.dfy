/** The fixed, ordered set of emotion labels and the step that turns the
    classifier's scores for one face into a label (main.py, lines 18 and 70). */
module Emotion {

  /** The labels, in the order the classifier's output indexes them. */
  const LABELS: seq<string> := ["Anger", "Disgust", "Fear", "Happy", "Sad", "Surprise", "Neutral"]

  /** One score per label, as the classifier produces for one face.
      Scores are integers here: only their order matters to the model. */
  type Scores = s: seq<int> | |s| == |LABELS| witness [0, 0, 0, 0, 0, 0, 0]

  /** i is the first index of s holding the maximum of s. */
  predicate IsFirstMax(s: seq<int>, i: int) {
    && 0 <= i < |s|
    && (forall j :: 0 <= j < |s| ==> s[j] <= s[i])
    && (forall j :: 0 <= j < i ==> s[j] < s[i])
  }

  /** The index of the largest score, the earliest one on a tie. */
  function ArgMax(s: seq<int>): (i: nat)
    requires |s| > 0
    ensures IsFirstMax(s, i)
  {
    if |s| == 1 then 0
    else
      var k := ArgMax(s[..|s| - 1]);
      if s[|s| - 1] > s[k] then |s| - 1 else k
  }

  /** At most one index is the first maximum. */
  lemma FirstMaxUnique(s: seq<int>, i: int, k: int)
    requires IsFirstMax(s, i) && IsFirstMax(s, k)
    ensures i == k
  {
    assert s[i] == s[k];
  }

  /** No label is listed twice. */
  lemma LabelsDistinct()
    ensures forall j, k :: 0 <= j < k < |LABELS| ==> LABELS[j] != LABELS[k]
  {
  }

  /** The label of one face: the label whose score is highest, the first in
      label order among equal highest scores. */
  function Classify(scores: Scores): (e: string)
    ensures e in LABELS
    ensures forall i {:trigger IsFirstMax(scores, i)} :: IsFirstMax(scores, i) ==> e == LABELS[i]
  {
    var k := ArgMax(scores);
    assert forall i {:trigger IsFirstMax(scores, i)} :: IsFirstMax(scores, i) ==> i == k by {
      forall i | IsFirstMax(scores, i) ensures i == k {
        FirstMaxUnique(scores, i, k);
      }
    }
    LABELS[k]
  }

  /** The labels of all faces of one frame, in detection order. */
  function ClassifyAll(faces: seq<Scores>): (es: seq<string>)
    ensures |es| == |faces|
    ensures forall i :: 0 <= i < |es| ==> es[i] == Classify(faces[i]) && es[i] in LABELS
  {
    seq(|faces|, i requires 0 <= i < |faces| => Classify(faces[i]))
  }

  /** A label is chosen exactly when its score is the first maximum. */
  lemma ClassifyPicksFirstMax(scores: Scores, i: nat)
    requires i < |LABELS|
    ensures Classify(scores) == LABELS[i] <==> IsFirstMax(scores, i)
  {
    var k := ArgMax(scores);
    LabelsDistinct();
    if Classify(scores) == LABELS[i] {
      assert LABELS[k] == LABELS[i];
      assert k == i;
    }
  }
}
