/**
 * The relay of the Gitter adapter's run loop: each dequeue result that is
 * present is forwarded to the outbox, in dequeue order; an absent result
 * (the dequeue observed cancellation) is skipped.
 */
module Relay {
  import opened Wrappers
  import opened Models

  /** The events the loop forwards, given the results of its successive dequeues. */
  function Forwarded(dequeued: seq<Option<MessageEvent>>): seq<MessageEvent>
  {
    if dequeued == [] then []
    else
      var last := dequeued[|dequeued| - 1];
      Forwarded(dequeued[..|dequeued| - 1]) + (if last.Some? then [last.value] else [])
  }

  /** Forwarding keeps dequeue order: the events of an earlier stretch precede those of a later one. */
  lemma {:induction false} ForwardedAppend(a: seq<Option<MessageEvent>>, b: seq<Option<MessageEvent>>)
    ensures Forwarded(a + b) == Forwarded(a) + Forwarded(b)
    decreases |b|
  {
    if b != [] {
      var ab := a + b;
      assert ab[..|ab| - 1] == a + b[..|b| - 1];
      ForwardedAppend(a, b[..|b| - 1]);
    } else {
      assert a + b == a;
    }
  }

  /** Every present dequeue result is forwarded, and nothing else is: no null reaches the outbox. */
  lemma {:induction false} ForwardedExactlyPresent(dequeued: seq<Option<MessageEvent>>, e: MessageEvent)
    ensures e in Forwarded(dequeued) <==> Some(e) in dequeued
  {
    if dequeued != [] {
      var init := dequeued[..|dequeued| - 1];
      ForwardedExactlyPresent(init, e);
      assert dequeued == init + [dequeued[|dequeued| - 1]];
    }
  }

  /** One outbox entry per present dequeue result: the count of forwarded events. */
  function PresentCount(dequeued: seq<Option<MessageEvent>>): nat
  {
    |set i | 0 <= i < |dequeued| && dequeued[i].Some?|
  }

  /** The loop forwards as many events as there were present results, so none is lost or duplicated. */
  lemma {:induction false} ForwardedLength(dequeued: seq<Option<MessageEvent>>)
    ensures |Forwarded(dequeued)| == PresentCount(dequeued)
  {
    if dequeued != [] {
      var n := |dequeued| - 1;
      var init := dequeued[..n];
      ForwardedLength(init);
      var before := set i | 0 <= i < n && init[i].Some?;
      var after := set i | 0 <= i < |dequeued| && dequeued[i].Some?;
      if dequeued[n].Some? {
        assert after == before + {n};
      } else {
        assert after == before;
      }
    }
  }
}
