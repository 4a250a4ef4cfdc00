/** The spoken-feedback channel: the render loop's drop-on-backlog offer,
    the shutdown sentinel, and what the speech worker says for a queue
    (main.py, lines 29-35, 78-79 and 103). */
module Speech {
  import opened Emotion

  datatype Option<T> = None | Some(value: T)

  /** The item that tells the speech worker to stop. */
  const QUIT: string := "QUIT"

  /** What the speech engine is asked to say for emotion e. */
  function Utterance(e: string): (u: string)
    ensures |u| == 16 + |e| && u[..16] == "You are feeling " && u[16..] == e
  {
    "You are feeling " + e
  }

  /** The sentinel is not an emotion label, so no offer from the render
      loop can stop the worker. */
  lemma QuitIsNoLabel(e: string)
    requires e in LABELS
    ensures e != QUIT
  {
  }

  /** The queue after the render loop offers e: e joins only an empty
      queue, otherwise it is dropped. */
  function Offered(q: seq<string>, e: string): (r: seq<string>)
    ensures r == q + [e] <==> q == []
    ensures r == q <==> q != []
  {
    if q == [] then [e] else q
  }

  /** The queue after the render loop offers each of es in order. */
  function OfferAll(q: seq<string>, es: seq<string>): (r: seq<string>)
    ensures q <= r && |r| <= |q| + 1
    ensures forall x :: x in r ==> x in q || x in es
  {
    if es == [] then q else Offered(OfferAll(q, es[..|es| - 1]), es[|es| - 1])
  }

  /** Offers never touch a queue that already holds something. */
  lemma {:induction false} OfferAllKeepsPending(q: seq<string>, es: seq<string>)
    requires q != []
    ensures OfferAll(q, es) == q
  {
    if es != [] {
      OfferAllKeepsPending(q, es[..|es| - 1]);
    }
  }

  /** Offered into an empty queue, the first offer stays and the rest are
      dropped. */
  lemma {:induction false} OfferAllIntoEmpty(es: seq<string>)
    ensures OfferAll([], es) == if es == [] then [] else [es[0]]
  {
    if |es| > 1 {
      OfferAllIntoEmpty(es[..|es| - 1]);
    }
  }

  /** Offers alone never make the queue longer than one item. */
  lemma OfferAllBounded(q: seq<string>, es: seq<string>)
    requires |q| <= 1
    ensures |OfferAll(q, es)| <= 1
  {
    if q == [] {
      OfferAllIntoEmpty(es);
    } else {
      OfferAllKeepsPending(q, es);
    }
  }

  /** The queue after one run's offers: still at most one item, and the
      first offer when it started empty. */
  lemma OfferAllFromShortQueue(q: seq<string>, es: seq<string>)
    ensures |q| <= 1 ==> |OfferAll(q, es)| <= 1
    ensures q == [] && es != [] ==> OfferAll(q, es) == [es[0]]
  {
    if |q| <= 1 {
      OfferAllBounded(q, es);
    }
    OfferAllIntoEmpty(es);
  }

  /** Offering Happy and then Sad keeps only Happy; once the worker has
      taken it, a new offer of Sad is queued. */
  lemma HappyThenSad()
    ensures OfferAll([], ["Happy", "Sad"]) == ["Happy"]
    ensures Offered(OfferAll([], ["Happy", "Sad"])[1..], "Sad") == ["Sad"]
  {
    OfferAllIntoEmpty(["Happy", "Sad"]);
  }

  /** The utterances for each of es, in order. */
  function Utterances(es: seq<string>): (us: seq<string>)
    ensures |us| == |es|
    ensures forall i :: 0 <= i < |es| ==> us[i] == Utterance(es[i])
  {
    seq(|es|, i requires 0 <= i < |es| => Utterance(es[i]))
  }

  /** What the speech worker says while it takes the items of q in order:
      one utterance per item, up to the first QUIT. */
  function Spoken(q: seq<string>): (s: seq<string>)
    ensures |s| <= |q|
    ensures forall i :: 0 <= i < |s| ==> q[i] != QUIT && s[i] == Utterance(q[i])
    ensures |s| < |q| ==> q[|s|] == QUIT
  {
    if q == [] || q[0] == QUIT then [] else [Utterance(q[0])] + Spoken(q[1..])
  }

  /** The items of q the worker never takes: those after the first QUIT. */
  function Remaining(q: seq<string>): (r: seq<string>)
    ensures |r| <= |q| && r == q[|q| - |r|..]
    ensures q != [] && q[0] == QUIT ==> r == q[1..]
  {
    if q == [] then [] else if q[0] == QUIT then q[1..] else Remaining(q[1..])
  }

  /** What the worker says and leaves after taking the head of q. */
  lemma SpokenStep(q: seq<string>)
    requires q != []
    ensures q[0] == QUIT ==> Spoken(q) == [] && Remaining(q) == q[1..]
    ensures q[0] != QUIT ==>
      && Spoken(q) == [Utterance(q[0])] + Spoken(q[1..])
      && Remaining(q) == Remaining(q[1..])
      && (QUIT in q <==> QUIT in q[1..])
  {
    assert q == [q[0]] + q[1..];
  }

  /** A queue without QUIT is spoken in full, item by item, and drained. */
  lemma {:induction false} SpokenWithoutQuit(q: seq<string>)
    requires QUIT !in q
    ensures Spoken(q) == Utterances(q)
    ensures Remaining(q) == []
  {
    if q != [] {
      SpokenWithoutQuit(q[1..]);
    }
  }

  /** The worker speaks every item before the first QUIT and takes nothing
      after it. */
  lemma {:induction false} SpokenUpToQuit(before: seq<string>, after: seq<string>)
    requires QUIT !in before
    ensures Spoken(before + [QUIT] + after) == Utterances(before)
    ensures Remaining(before + [QUIT] + after) == after
  {
    if before == [] {
      assert before + [QUIT] + after == [QUIT] + after;
    } else {
      assert (before + [QUIT] + after)[1..] == before[1..] + [QUIT] + after;
      SpokenUpToQuit(before[1..], after);
    }
  }

  /** A queue filled only by the render loop holds a label, so the worker
      speaks it. */
  lemma OfferedQueueSpokenInFull(es: seq<string>)
    requires es != [] && es[0] in LABELS
    ensures Spoken(OfferAll([], es)) == [Utterance(es[0])]
  {
    OfferAllIntoEmpty(es);
    var e := es[0];
    QuitIsNoLabel(e);
    var q := OfferAll([], es);
    assert q[0] == e && q[1..] == [];
  }
}
