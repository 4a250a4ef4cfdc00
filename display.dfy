/** What the window shows about the tally: the status line and the
    background colour keyed by the dominant emotion (main.py, lines 43, 51,
    83 and 92-94). */
module Display {
  import opened Emotion

  /** The status line before any face has been seen. */
  const INITIAL_STATUS: string := "Most Detected: None"

  const STATUS_PREFIX: string := "Most Detected Emotion: "

  /** The background when the dominant emotion has no colour of its own,
      which is also the window's colour at start-up. */
  const DEFAULT_BACKGROUND: string := "#2e3b4e"

  /** The four emotions with a colour of their own. */
  const COLOURS: map<string, string> :=
    map["Happy" := "#28a745", "Sad" := "#007bff", "Anger" := "#dc3545", "Neutral" := "#6c757d"]

  /** The status line naming the dominant emotion d. */
  function StatusText(d: string): (r: string)
    ensures |r| == |STATUS_PREFIX| + |d|
    ensures r[..|STATUS_PREFIX|] == STATUS_PREFIX && r[|STATUS_PREFIX|..] == d
  {
    STATUS_PREFIX + d
  }

  /** Different emotions give different status lines, and none of them is
      the start-up line. */
  lemma StatusTextInjective(d1: string, d2: string)
    ensures StatusText(d1) == StatusText(d2) <==> d1 == d2
    ensures StatusText(d1) != INITIAL_STATUS
  {
    if StatusText(d1) == StatusText(d2) {
      assert d1 == StatusText(d1)[|STATUS_PREFIX|..];
    }
  }

  /** The background for emotion e: its own colour if it has one, the
      default otherwise. */
  function Background(e: string): (c: string)
    ensures e in COLOURS ==> c == COLOURS[e]
    ensures c == DEFAULT_BACKGROUND <==> e !in COLOURS
  {
    if e in COLOURS then COLOURS[e] else DEFAULT_BACKGROUND
  }

  /** The colour of every label: Disgust, Fear and Surprise share the
      default, the other four have distinct colours of their own. */
  lemma LabelBackgrounds()
    ensures Background("Happy") == "#28a745"
    ensures Background("Sad") == "#007bff"
    ensures Background("Anger") == "#dc3545"
    ensures Background("Neutral") == "#6c757d"
    ensures Background("Disgust") == Background("Fear") == Background("Surprise") == DEFAULT_BACKGROUND
    ensures forall i, j ::
      (0 <= i < j < |LABELS| && LABELS[i] in COLOURS && LABELS[j] in COLOURS) ==>
        Background(LABELS[i]) != Background(LABELS[j])
  {
  }
}
