/** The running tally of detected emotions and the most detected one
    (main.py, lines 16, 76-77 and 82). */
module Aggregator {
  import opened Emotion

  /** How often each label has been detected since start-up. */
  type Counts = map<string, nat>

  /** The tally has exactly the seven labels as its keys. */
  predicate HasLabelKeys(c: Counts) {
    && (forall k :: k in c ==> k in LABELS)
    && (forall k :: k in LABELS ==> k in c)
  }

  /** Every label at zero, the state at start-up. */
  const INITIAL_COUNTS: Counts :=
    map["Anger" := 0, "Disgust" := 0, "Fear" := 0, "Happy" := 0, "Sad" := 0, "Surprise" := 0, "Neutral" := 0]

  /** One more detection of e. */
  function Increment(c: Counts, e: string): (r: Counts)
    requires e in c
    ensures r.Keys == c.Keys
    ensures r[e] == c[e] + 1
    ensures forall k :: k in c && k != e ==> r[k] == c[k]
  {
    c[e := c[e] + 1]
  }

  /** The tally after one increment per label of es, in order. */
  function Tally(c: Counts, es: seq<string>): (r: Counts)
    requires forall i :: 0 <= i < |es| ==> es[i] in c
    ensures r.Keys == c.Keys
  {
    if es == [] then c
    else Increment(Tally(c, es[..|es| - 1]), es[|es| - 1])
  }

  /** Each count rises by the number of occurrences of its label in es. */
  lemma {:induction false} TallyCount(c: Counts, es: seq<string>, k: string)
    requires forall i :: 0 <= i < |es| ==> es[i] in c
    requires k in c
    ensures Tally(c, es)[k] == c[k] + multiset(es)[k]
  {
    if es != [] {
      var front, last := es[..|es| - 1], es[|es| - 1];
      assert es == front + [last];
      TallyCount(c, front, k);
    }
  }

  /** Counts never decrease. */
  lemma {:induction false} TallyMonotone(c: Counts, es: seq<string>)
    requires forall i :: 0 <= i < |es| ==> es[i] in c
    ensures forall k :: k in c ==> Tally(c, es)[k] >= c[k]
  {
    forall k | k in c ensures Tally(c, es)[k] >= c[k] {
      TallyCount(c, es, k);
    }
  }

  /** The sum of the counts of the labels in keys. */
  function SumOver(keys: seq<string>, c: Counts): nat
    requires forall i :: 0 <= i < |keys| ==> keys[i] in c
  {
    if keys == [] then 0 else c[keys[0]] + SumOver(keys[1..], c)
  }

  /** The number of detections the tally has recorded. */
  function Total(c: Counts): nat
    requires HasLabelKeys(c)
  {
    SumOver(LABELS, c)
  }

  /** One increment adds one per occurrence of e in keys to their sum. */
  lemma {:induction false} SumOverIncrement(keys: seq<string>, c: Counts, e: string)
    requires forall i :: 0 <= i < |keys| ==> keys[i] in c
    requires e in c
    ensures SumOver(keys, Increment(c, e)) == SumOver(keys, c) + multiset(keys)[e]
  {
    if keys != [] {
      assert keys == [keys[0]] + keys[1..];
      SumOverIncrement(keys[1..], c, e);
    }
  }

  /** Each label occurs once in the label order. */
  lemma LabelOccursOnce(e: string)
    requires e in LABELS
    ensures multiset(LABELS)[e] == 1
  {
  }

  /** A tally of es raises the total by exactly |es|. */
  lemma {:induction false} TallyTotal(c: Counts, es: seq<string>)
    requires HasLabelKeys(c)
    requires forall i :: 0 <= i < |es| ==> es[i] in LABELS
    ensures HasLabelKeys(Tally(c, es))
    ensures Total(Tally(c, es)) == Total(c) + |es|
  {
    if es != [] {
      var front, last := es[..|es| - 1], es[|es| - 1];
      TallyTotal(c, front);
      SumOverIncrement(LABELS, Tally(c, front), last);
      LabelOccursOnce(last);
    }
  }

  /** The start-up tally holds the seven labels, all at zero. */
  lemma InitialCountsZero()
    ensures HasLabelKeys(INITIAL_COUNTS)
    ensures forall k :: k in INITIAL_COUNTS ==> INITIAL_COUNTS[k] == 0
  {
  }

  /** No detection is recorded at start-up. */
  lemma InitialTotalZero()
    ensures HasLabelKeys(INITIAL_COUNTS) && Total(INITIAL_COUNTS) == 0
  {
    InitialCountsZero();
  }

  /** The counts in label order. */
  function CountVector(c: Counts): (v: seq<int>)
    requires HasLabelKeys(c)
    ensures |v| == |LABELS|
    ensures forall i :: 0 <= i < |LABELS| ==> v[i] == c[LABELS[i]]
  {
    seq(|LABELS|, i requires 0 <= i < |LABELS| => c[LABELS[i]] as int)
  }

  /** The label with the highest count; on a tie, the first in label order. */
  function Dominant(c: Counts): (d: string)
    requires HasLabelKeys(c)
    ensures d in LABELS
    ensures forall i :: 0 <= i < |LABELS| ==> c[LABELS[i]] <= c[d]
    ensures forall i, j :: 0 <= i < j < |LABELS| && LABELS[j] == d ==> c[LABELS[i]] < c[d]
  {
    var v := CountVector(c);
    var m := ArgMax(v);
    LabelsDistinct();
    assert forall j :: 0 <= j < |LABELS| && LABELS[j] == LABELS[m] ==> j == m;
    LABELS[m]
  }

  /** The three properties of Dominant single out one label. */
  lemma DominantUnique(c: Counts, d: string)
    requires HasLabelKeys(c)
    requires d in LABELS
    requires forall i :: 0 <= i < |LABELS| ==> c[LABELS[i]] <= c[d]
    requires forall i, j :: 0 <= i < j < |LABELS| && LABELS[j] == d ==> c[LABELS[i]] < c[d]
    ensures d == Dominant(c)
  {
    var m := Dominant(c);
    var i :| 0 <= i < |LABELS| && LABELS[i] == m;
    var j :| 0 <= j < |LABELS| && LABELS[j] == d;
    assert c[LABELS[i]] == c[LABELS[j]];
  }

  /** A tally of two Happy, one Sad and nothing else has Happy dominant. */
  lemma HappyLeads(c: Counts)
    requires HasLabelKeys(c)
    requires c["Happy"] == 2 && c["Sad"] == 1
    requires c["Anger"] == 0 && c["Disgust"] == 0 && c["Fear"] == 0 && c["Surprise"] == 0 && c["Neutral"] == 0
    ensures Dominant(c) == "Happy"
  {
    DominantUnique(c, "Happy");
  }

  /** Detections Happy, Happy, Sad from start-up: Happy leads with two,
      Sad has one and every other label none. */
  lemma HappyHappySad(es: seq<string>)
    requires es == ["Happy", "Happy", "Sad"]
    ensures var c := Tally(INITIAL_COUNTS, es);
      && c["Happy"] == 2 && c["Sad"] == 1
      && c["Anger"] == 0 && c["Disgust"] == 0 && c["Fear"] == 0 && c["Surprise"] == 0 && c["Neutral"] == 0
      && Dominant(c) == "Happy"
  {
    InitialCountsZero();
    assert multiset(es) == multiset{"Happy", "Happy", "Sad"};
    TallyCount(INITIAL_COUNTS, es, "Happy");
    TallyCount(INITIAL_COUNTS, es, "Sad");
    TallyCount(INITIAL_COUNTS, es, "Anger");
    TallyCount(INITIAL_COUNTS, es, "Disgust");
    TallyCount(INITIAL_COUNTS, es, "Fear");
    TallyCount(INITIAL_COUNTS, es, "Surprise");
    TallyCount(INITIAL_COUNTS, es, "Neutral");
    HappyLeads(Tally(INITIAL_COUNTS, es));
  }
}
