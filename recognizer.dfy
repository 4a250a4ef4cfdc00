/** The application state and the per-tick handler that drives it
    (main.py, lines 16-19, 29-35, 56-90, 92-94 and 100-103).

    The camera, face detector and emotion model are inputs: a tick is given
    either no frame or, for each face the detector found, the model's scores.
    The window's status line and background are plain fields, and the timer
    that schedules the next tick is the flag armed. The speech worker runs
    on the same state through WorkerStep, one queue item at a time. */
module Recognizer {
  import opened Emotion
  import opened Aggregator
  import opened Display
  import opened Speech

  /** What one read of the camera yields. */
  datatype Frame = Unavailable | Captured(faces: seq<Scores>)

  class Pipeline {
    /** The tally of every emotion detected since start-up. */
    var counts: Counts
    /** The speech queue shared with the worker, head first. */
    var pending: seq<string>
    /** The text of the status line under the video. */
    var status: string
    /** The window's background colour. */
    var background: string
    /** Whether another tick has been scheduled. */
    var armed: bool
    /** Whether the speech worker is still taking items from the queue. */
    var workerRunning: bool

    ghost predicate Valid()
      reads this
    {
      HasLabelKeys(counts)
    }

    /** The state at start-up, with the first tick about to run. */
    constructor ()
      ensures Valid()
      ensures counts == INITIAL_COUNTS
      ensures pending == [] && workerRunning
      ensures status == INITIAL_STATUS && background == DEFAULT_BACKGROUND
      ensures armed
    {
      InitialCountsZero();
      counts := INITIAL_COUNTS;
      pending := [];
      status := INITIAL_STATUS;
      background := DEFAULT_BACKGROUND;
      armed := true;
      workerRunning := true;
    }

    /** Hands e to the speech worker unless an item is already waiting. */
    method Offer(e: string)
      modifies this`pending
      ensures pending == Offered(old(pending), e)
      ensures old(pending) == [] ==> pending == [e]
      ensures old(pending) != [] ==> pending == old(pending)
    {
      if pending == [] {
        pending := pending + [e];
      }
    }

    /** The detection loop of one tick: the label of each face, in the
        order the detector found them. */
    static method Detect(faces: seq<Scores>) returns (detected: seq<string>)
      ensures detected == ClassifyAll(faces)
    {
      detected := [];
      var i := 0;
      while i < |faces|
        invariant 0 <= i <= |faces|
        invariant detected == ClassifyAll(faces[..i])
      {
        detected := detected + [Classify(faces[i])];
        i := i + 1;
      }
      assert faces[..|faces|] == faces;
    }

    /** The tally loop of one tick: one more count and one offer per
        detected label, in order. */
    method Record(detected: seq<string>)
      requires Valid()
      requires forall i :: 0 <= i < |detected| ==> detected[i] in LABELS
      modifies this`counts, this`pending
      ensures Valid()
      ensures counts == Tally(old(counts), detected)
      ensures pending == OfferAll(old(pending), detected)
      ensures Total(counts) == Total(old(counts)) + |detected|
    {
      var j := 0;
      while j < |detected|
        invariant 0 <= j <= |detected|
        invariant counts.Keys == old(counts).Keys
        invariant counts == Tally(old(counts), detected[..j])
        invariant pending == OfferAll(old(pending), detected[..j])
      {
        var e := detected[j];
        assert detected[..j + 1][..j] == detected[..j];
        counts := counts[e := counts[e] + 1];
        Offer(e);
        j := j + 1;
      }
      assert detected[..|detected|] == detected;
      TallyTotal(old(counts), detected);
    }

    /** One run of the frame handler: nothing changes and no further run is
        scheduled when the camera yields no frame; otherwise the faces are
        processed and the next run is scheduled. */
    method Tick(frame: Frame)
      requires Valid()
      modifies this
      ensures Valid()
      ensures workerRunning == old(workerRunning)
      ensures frame.Unavailable? ==>
        && counts == old(counts) && pending == old(pending)
        && status == old(status) && background == old(background)
        && !armed
      ensures frame.Captured? ==> armed
      ensures frame.Captured? ==> counts == Tally(old(counts), ClassifyAll(frame.faces))
      ensures frame.Captured? ==> pending == OfferAll(old(pending), ClassifyAll(frame.faces))
      ensures frame.Captured? && frame.faces == [] ==>
        status == old(status) && background == old(background)
      ensures frame.Captured? && frame.faces != [] ==>
        status == StatusText(Dominant(counts)) && background == Background(Dominant(counts))
    {
      if frame.Unavailable? {
        armed := false;
        return;
      }
      ProcessFaces(frame.faces);
      armed := true;
    }

    /** The work of one run on the faces of a captured frame: classify each,
        count and offer each label, then show the most detected emotion if
        any face was found. */
    method ProcessFaces(faces: seq<Scores>)
      requires Valid()
      modifies this`counts, this`pending, this`status, this`background
      ensures Valid()
      ensures counts == Tally(old(counts), ClassifyAll(faces))
      ensures pending == OfferAll(old(pending), ClassifyAll(faces))
      ensures faces == [] ==> status == old(status) && background == old(background)
      ensures faces != [] ==>
        status == StatusText(Dominant(counts)) && background == Background(Dominant(counts))
      ensures forall k :: k in old(counts) ==> counts[k] >= old(counts)[k]
      ensures |old(pending)| <= 1 ==> |pending| <= 1
      ensures old(pending) == [] && faces != [] ==> pending == [Classify(faces[0])]
    {
      var detected := Detect(faces);
      Record(detected);
      TallyMonotone(old(counts), detected);
      OfferAllFromShortQueue(old(pending), detected);
      if detected != [] {
        ShowDominant();
      }
    }

    /** The status line and background for the current dominant emotion. */
    method ShowDominant()
      requires Valid()
      modifies this`status, this`background
      ensures status == StatusText(Dominant(counts))
      ensures background == Background(Dominant(counts))
    {
      var mostDetected := Dominant(counts);
      status := StatusText(mostDetected);
      background := Background(mostDetected);
    }

    /** The speech worker receives the head of the queue: it stops on QUIT
        and otherwise returns what it says. With an empty queue it is still
        waiting; once stopped it takes nothing. */
    method WorkerStep() returns (said: Option<string>)
      modifies this`pending, this`workerRunning
      ensures !old(workerRunning) || old(pending) == [] ==>
        said == None && pending == old(pending) && workerRunning == old(workerRunning)
      ensures old(workerRunning) && old(pending) != [] && old(pending)[0] == QUIT ==>
        said == None && pending == old(pending)[1..] && !workerRunning
      ensures old(workerRunning) && old(pending) != [] && old(pending)[0] != QUIT ==>
        said == Some(Utterance(old(pending)[0])) && pending == old(pending)[1..] && workerRunning
    {
      said := None;
      if workerRunning && pending != [] {
        var emotion := pending[0];
        pending := pending[1..];
        if emotion == QUIT {
          workerRunning := false;
        } else {
          said := Some(Utterance(emotion));
        }
      }
    }

    /** The speech worker's loop, run until it stops or finds the queue
        empty: it says Spoken of the queue and leaves Remaining of it. */
    method RunWorker() returns (said: seq<string>)
      modifies this`pending, this`workerRunning
      ensures !old(workerRunning) ==> said == [] && pending == old(pending) && !workerRunning
      ensures old(workerRunning) ==>
        && said == Spoken(old(pending))
        && pending == Remaining(old(pending))
        && (workerRunning <==> QUIT !in old(pending))
    {
      said := [];
      while workerRunning && pending != []
        invariant !old(workerRunning) ==> said == [] && pending == old(pending) && !workerRunning
        invariant old(workerRunning) && workerRunning ==>
          && Spoken(old(pending)) == said + Spoken(pending)
          && Remaining(old(pending)) == Remaining(pending)
          && (QUIT in old(pending) <==> QUIT in pending)
        invariant old(workerRunning) && !workerRunning ==>
          && said == Spoken(old(pending))
          && pending == Remaining(old(pending))
          && QUIT in old(pending)
        decreases |pending|
      {
        ghost var before := pending;
        SpokenStep(before);
        var step := WorkerStep();
        if step.Some? {
          said := said + [step.value];
        }
      }
    }

    /** Closing the window: no tick runs again and QUIT joins the speech
        queue whatever it holds. */
    method Shutdown()
      modifies this`pending, this`armed
      ensures pending == old(pending) + [QUIT]
      ensures !armed
    {
      armed := false;
      pending := pending + [QUIT];
    }
  }

  /** After shutdown, a worker that runs before the process exits says
      everything offered before it and then stops with nothing left; the
      tally and the window are not touched. */
  method ShutdownDrains(p: Pipeline) returns (said: seq<string>)
    requires p.workerRunning
    requires forall i :: 0 <= i < |p.pending| ==> p.pending[i] in LABELS
    modifies p`pending, p`workerRunning, p`armed
    ensures said == Utterances(old(p.pending))
    ensures p.pending == [] && !p.workerRunning && !p.armed
  {
    ghost var queued := p.pending;
    p.Shutdown();
    forall i | 0 <= i < |queued| ensures queued[i] != QUIT {
      QuitIsNoLabel(queued[i]);
    }
    assert queued + [QUIT] == queued + [QUIT] + [];
    SpokenUpToQuit(queued, []);
    said := p.RunWorker();
  }
}
