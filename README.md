# Facial emotion recognition: the per-tick pipeline, verified

This project models the core of a small desktop application that watches a
webcam, classifies the emotion on every face it finds, keeps a running tally
of the emotions seen, shows the most detected one as a status line and a
background colour, and speaks it through a text-to-speech worker.

The model covers:

- the fixed label order Anger, Disgust, Fear, Happy, Sad, Surprise, Neutral;
- the step that turns the classifier's scores for a face into a label (the
  first index holding the highest score);
- the tally of detected emotions, which always has the seven labels as keys;
- the most detected emotion, where a tie goes to the earlier label;
- the status line and the colour table;
- the speech queue, which takes an offer only when it is empty;
- the worker loop, which says "You are feeling {e}" for each item up to the
  `QUIT` sentinel;
- one run of the frame handler, as a method on a `Pipeline` object. The
  object holds the counts, the pending queue, the status text, the
  background colour, an `armed` flag (another run is scheduled) and
  `workerRunning` (the speech thread is still taking items).

Modules, one per component:

- `Emotion` (`emotion.dfy`): labels, scores, `ArgMax`, `Classify`.
- `Aggregator` (`aggregator.dfy`): the counts map, `Tally`, `Total`,
  `Dominant`.
- `Display` (`display.dfy`): the status text and the background colours.
- `Speech` (`speech.dfy`): the drop-on-backlog offer (`Offered`,
  `OfferAll`), the sentinel, and what the worker says (`Spoken`) and leaves
  (`Remaining`).
- `Recognizer` (`recognizer.dfy`): the `Pipeline` class and its methods.

Inputs in place of external collaborators:

- The camera, face detector and emotion model are not modelled. A run of
  the frame handler is given a `Frame`. It is either `Unavailable` (the
  read failed) or `Captured(faces)`, which holds for each detected face the
  model's seven scores.
- Scores are integers. Only their order matters to the label pick.
- The speech engine is a returned value. `WorkerStep` and `RunWorker`
  return the utterances the engine is asked to say.

Two behaviours of the code worth noting:

- A failed camera read returns from the handler before it schedules its
  next run (main.py:58 comes before main.py:90). The model's `Tick`
  therefore clears `armed` on `Unavailable`, so polling stops for good. It
  does not skip to the next run.
- The status line at start-up reads "Most Detected: None". After any tick
  with a face it reads "Most Detected Emotion: " followed by the label.

## Model

| member | source | states |
|---|---|---|
| `Emotion.ArgMax` | main.py:70 | the result indexes the largest score, and every earlier index holds a strictly smaller one (first index wins a tie) |
| `Emotion.FirstMaxUnique` | main.py:70 | at most one index is the first maximum, so the label pick is determined by the scores |
| `Emotion.LabelsDistinct` | main.py:18 | no label appears twice in the label list |
| `Emotion.Classify` | main.py:69-70 | the label of a face is one of the seven, and it is `labels[i]` for the first index i holding the highest score |
| `Emotion.ClassifyPicksFirstMax` | main.py:70 | `Classify` returns `labels[i]` if and only if i is the first index of the maximum score |
| `Emotion.ClassifyAll` | main.py:63-71 | one label per detected face, in detection order: the i-th entry is the label `Classify` picks for face i, and each is among the seven labels |
| `Aggregator.Increment` | main.py:77 | one increment raises the count of e by one and leaves every other count and the key set alone |
| `Aggregator.Tally` | main.py:76-77 | applying the increments for a list of labels never changes the key set of the tally |
| `Aggregator.TallyCount` | main.py:76-77 | after the tally loop each label's count has risen by the number of times it occurs in the frame's detections |
| `Aggregator.TallyMonotone` | main.py:76-77 | counts never decrease |
| `Aggregator.TallyTotal` | main.py:63-77 | a run with k classified faces raises the sum of all counts by exactly k, and the tally keeps exactly the seven keys |
| `Aggregator.InitialCountsZero` | main.py:16 | the tally starts with exactly the seven labels as keys, each at zero |
| `Aggregator.InitialTotalZero` | main.py:16 | the tally records no detection at start-up |
| `Aggregator.Dominant` | main.py:82 | the most detected label is a label, its count is at least every other count, and every label before it in dictionary order has a strictly smaller count (first maximal key wins) |
| `Aggregator.DominantUnique` | main.py:82 | any label with the properties of `Dominant` is the value `Dominant` returns: the tie-break decides the result |
| `Aggregator.HappyLeads` | main.py:82 | a tally with Happy 2, Sad 1 and all else 0 has Happy as the most detected emotion |
| `Aggregator.HappyHappySad` | main.py:76-82 | detections Happy, Happy, Sad from start-up give Happy 2, Sad 1, all others 0, with Happy most detected |
| `Display.StatusText` | main.py:83 | the status line is "Most Detected Emotion: " followed by exactly the dominant label |
| `Display.StatusTextInjective` | main.py:83 | different labels give different status lines, and none equals the start-up text of line 51 |
| `Display.Background` | main.py:92-94 | a label in the colour table gets its colour; the default "#2e3b4e" comes out exactly for labels outside the table |
| `Display.LabelBackgrounds` | main.py:93 | Happy, Sad, Anger and Neutral get their four distinct colours; Disgust, Fear and Surprise get the default |
| `Speech.Utterance` | main.py:34 | the phrase is "You are feeling " followed by exactly the queued label |
| `Speech.Offered` | main.py:78-79 | an offer is appended exactly when the queue is empty, and leaves the queue unchanged exactly when it is not |
| `Speech.OfferAll` | main.py:76-79 | offering a list of labels keeps what was queued as a prefix, adds at most one item, and adds only an offered label |
| `Speech.Spoken` | main.py:31-35 | the worker says "You are feeling {e}" for each of the first items in order, none of them `QUIT`, and stops at the first `QUIT` or the end of the queue |
| `Speech.Remaining` | main.py:31-35 | what the worker leaves is a suffix of the queue; a `QUIT` at the head leaves everything after it |
| `Speech.QuitIsNoLabel` | main.py:33 | no emotion label equals the sentinel `QUIT` |
| `Speech.OfferAllKeepsPending` | main.py:78-79 | while an item is pending, every offer is dropped and the queue is unchanged |
| `Speech.OfferAllIntoEmpty` | main.py:76-79 | offers into an empty queue leave exactly the first offered label queued; the later ones are dropped |
| `Speech.OfferAllBounded` | main.py:78-79 | offers alone never make a queue of at most one item longer than one |
| `Speech.HappyThenSad` | main.py:78-79 | offering Happy then Sad keeps only Happy; after the worker takes it, offering Sad queues Sad |
| `Speech.SpokenWithoutQuit` | main.py:31-35 | a queue without `QUIT` is spoken in full, item by item in FIFO order, and drained |
| `Speech.SpokenUpToQuit` | main.py:31-35 | the worker speaks each item before the first `QUIT`, in order, and consumes nothing after it |
| `Speech.OfferedQueueSpokenInFull` | main.py:76-79 | a label queued by the frame handler is spoken, since it is never the sentinel |
| `Recognizer.Pipeline.constructor` | main.py:16-51 | start-up state: all counts zero (line 16), empty queue, worker running (line 37), start-up colour (line 43) and status text (line 51), first run due (line 100) |
| `Recognizer.Pipeline.Offer` | main.py:78-79 | the label is appended only if the queue is empty; otherwise the queue is unchanged |
| `Recognizer.Pipeline.Detect` | main.py:63-71 | the detection loop builds the list of labels of the faces, in detection order |
| `Recognizer.Pipeline.Record` | main.py:76-79 | the tally loop leaves the tally of the detections, raises the sum of all counts by exactly the number of detections, and leaves the queue after offering each detection in order |
| `Recognizer.Pipeline.ProcessFaces` | main.py:60-84 | counts, queue, status and background after the faces of one frame; status and background change only when a face was found; counts never decrease; a queue of at most one stays so; an empty queue ends holding the first label |
| `Recognizer.Pipeline.ShowDominant` | main.py:81-84 | the status line and background are set from the dominant label of the current counts |
| `Recognizer.Pipeline.Tick` | main.py:56-90 | a failed read changes nothing and does not re-arm; a successful read processes the faces and always re-arms |
| `Recognizer.Pipeline.WorkerStep` | main.py:32-35 | the worker takes the head of the queue: `QUIT` stops it, any other item is spoken; an empty queue or a stopped worker changes nothing |
| `Recognizer.Pipeline.RunWorker` | main.py:29-35 | the worker loop says `Spoken` of the queue, leaves `Remaining` of it, and is still running exactly when no `QUIT` was queued |
| `Recognizer.Pipeline.Shutdown` | main.py:101-103 | closing stops further runs and appends `QUIT` whatever the queue holds |
| `Recognizer.ShutdownDrains` | main.py:101-103 | after shutdown a running worker speaks every queued label in order, then stops with an empty queue; only the queue, the worker flag and the timer flag change |

## Left out

- Window layout, widgets, buttons and the Tk main loop (main.py:39-52,
  96-101) are user interface. The status text and the background colour
  are fields of `Pipeline`.
- The "Show History" button (main.py:97) only displays the counts map as
  text.
- The timer behind `root.after` (main.py:90) is the boolean `armed`. The
  10 ms delay is not modelled.
- Camera capture, colour conversion, the Haar cascade detector, drawing
  boxes and labels, PIL/ImageTk conversion and `webcam.release()`
  (main.py:54-61, 73-74, 86-89, 102) are foreign image and device I/O.
  A frame is `Unavailable` or the per-face score vectors.
- Cropping, resizing to 48×48, scaling by 1/255 and the Keras
  `model.predict` call (main.py:65-69) are floating-point numerics and
  opaque inference. Only the argmax-to-label step is modelled, on integer
  scores. The scores are fixed at seven per face by the `Scores` type, the
  model's output shape.
- Loading the model and the cascade, with its `try`/`except` print
  (main.py:22-26), is file I/O. The model assumes both loaded.
- The `pyttsx3` engine and the daemon thread (main.py:30, 34-35, 37) are a
  foreign call and concurrency. The worker runs sequentially on the same
  state through `WorkerStep` and `RunWorker`, and the race between
  `empty()` and `get()` is not captured. `RunWorker` stops when the queue is
  empty; there the real worker blocks in `get()` waiting for more.
- The `emotion_trend` deque (main.py:17) is declared but never used.
- The matplotlib and seaborn imports (main.py:12-13) are never used.
- Exceptions from the detector or classifier, which would end the handler,
  are not modelled.
- `Recognizer.Pipeline.Tick`: does not itself state the new sum of the
  counts, because the clause makes its proof too large for the solver. It
  states that the counts become `Tally` of the old counts and the frame's
  labels, one label per face; `Aggregator.TallyTotal` gives the sum of that.
- `Recognizer.Pipeline.ProcessFaces`: leaves out the sum of the counts for
  the same reason. `Recognizer.Pipeline.Record`, which it calls, states it.
- `Recognizer.ShutdownDrains`: the drain holds only if the worker runs
  before the process exits. The worker is a daemon thread (main.py:37) and
  `speech_queue.put('QUIT')` (main.py:103) is the program's last statement,
  so the interpreter may stop the worker before it says the queued labels.
  The model runs the worker to completion after shutdown.
