/** The search-text pipeline of the location manager: the published search
    text goes through a 0.5 s debounce and then a duplicate filter before it
    reaches the manager's handler. Time is an integer count of milliseconds.

    The pipeline's own state (the pending timer and the last value let
    through the duplicate filter) is a value, `Debouncer`; `Run` replays a
    whole trace of text changes and clock readings from the idle state. */
module SearchPipeline {
  import opened Platform

  /** The debounce interval in milliseconds (0.5 seconds). */
  const DebounceMs: int := 500

  /** A text waiting for its timer, which fires at `deadline`. */
  datatype Pending = Pending(text: string, deadline: int)

  /** The debounce timer and the memory of the duplicate filter. */
  datatype Debouncer = Debouncer(pending: Option<Pending>, lastDelivered: Option<string>)

  /** Nothing pending, nothing delivered yet. */
  const Idle: Debouncer := Debouncer(None, None)

  /** What the pipeline observes: a new value of the text, or the clock
      reaching a time at which a due timer fires. */
  datatype SearchEvent = TextChanged(time: int, text: string) | ClockAdvanced(time: int)

  /** One value handed to the handler, by the event at index `at` of the trace. */
  datatype Delivery = Delivery(at: nat, text: string)

  /** The clock reaches `now`. A pending text whose deadline has come is taken
      off the timer; it is handed on unless it equals the last value the
      duplicate filter let through. */
  function Fire(d: Debouncer, now: int): (res: (Debouncer, Option<string>))
    ensures res.1.Some? <==>
              d.pending.Some? && now >= d.pending.value.deadline && d.lastDelivered != Some(d.pending.value.text)
    ensures res.1.Some? ==> res.1.value == d.pending.value.text
    ensures d.pending.Some? && now >= d.pending.value.deadline ==>
              res.0 == Debouncer(None, Some(d.pending.value.text))
    ensures !(d.pending.Some? && now >= d.pending.value.deadline) ==> res.0 == d
  {
    match d.pending
    case Some(p) =>
      if now < p.deadline then (d, None)
      else if d.lastDelivered == Some(p.text) then (Debouncer(None, d.lastDelivered), None)
      else (Debouncer(None, Some(p.text)), Some(p.text))
    case None => (d, None)
  }

  /** A new text value (re)starts the timer; nothing is delivered. */
  function Input(d: Debouncer, text: string, now: int): (r: Debouncer)
    ensures r.pending == Some(Pending(text, now + DebounceMs))
    ensures r.lastDelivered == d.lastDelivered
  {
    d.(pending := Some(Pending(text, now + DebounceMs)))
  }

  /** The index of the last text change of a trace, if any. */
  function LastEdit(events: seq<SearchEvent>): (r: Option<nat>)
    ensures r.Some? ==> r.value < |events| && events[r.value].TextChanged?
    ensures r.Some? ==> forall m :: r.value < m < |events| ==> events[m].ClockAdvanced?
    ensures r.None? ==> forall m :: 0 <= m < |events| ==> events[m].ClockAdvanced?
    decreases |events|
  {
    if events == [] then None
    else if events[|events| - 1].TextChanged? then Some(|events| - 1)
    else LastEdit(events[..|events| - 1])
  }

  /** The pipeline's state and deliveries after a trace, starting idle. */
  function Run(events: seq<SearchEvent>): (r: (Debouncer, seq<Delivery>))
    ensures |r.1| <= |events|
    ensures forall k :: 0 <= k < |r.1| ==> r.1[k].at < |events| && events[r.1[k].at].ClockAdvanced?
    decreases |events|
  {
    if events == [] then (Idle, [])
    else
      var before := Run(events[..|events| - 1]);
      match events[|events| - 1]
      case TextChanged(t, v) => (Input(before.0, v, t), before.1)
      case ClockAdvanced(t) =>
        var fired := Fire(before.0, t);
        (fired.0, before.1 + if fired.1.Some? then [Delivery(|events| - 1, fired.1.value)] else [])
  }

  /** Fold of `Fire` and `Input` over a trace: the state after a trace
      extended by one event. */
  lemma RunStep(events: seq<SearchEvent>, e: SearchEvent)
    ensures e.TextChanged? ==> Run(events + [e]).0 == Input(Run(events).0, e.text, e.time)
    ensures e.ClockAdvanced? ==> Run(events + [e]).0 == Fire(Run(events).0, e.time).0
    ensures e.TextChanged? ==> Run(events + [e]).1 == Run(events).1
    ensures e.ClockAdvanced? ==>
              Run(events + [e]).1 == Run(events).1 +
                (if Fire(Run(events).0, e.time).1.Some? then [Delivery(|events|, Fire(Run(events).0, e.time).1.value)] else [])
  {
    assert (events + [e])[..|events|] == events;
  }

  /** Delivery `dv` was made by a clock event at least `DebounceMs` after the
      last text change before it, and carries that change's text. */
  ghost predicate QuietDelivery(events: seq<SearchEvent>, dv: Delivery)
  {
    && dv.at < |events|
    && events[dv.at].ClockAdvanced?
    && LastEdit(events[..dv.at]).Some?
    && events[LastEdit(events[..dv.at]).value].text == dv.text
    && events[dv.at].time >= events[LastEdit(events[..dv.at]).value].time + DebounceMs
  }

  /** A pending text is the text of the last change, due 0.5 s after it. */
  ghost predicate PendingIsLastEdit(events: seq<SearchEvent>, d: Debouncer)
  {
    d.pending.Some? ==>
      && LastEdit(events).Some?
      && events[LastEdit(events).value].text == d.pending.value.text
      && d.pending.value.deadline == events[LastEdit(events).value].time + DebounceMs
  }

  /** The duplicate filter remembers exactly the last delivered text. */
  ghost predicate RemembersLastDelivery(events: seq<SearchEvent>, d: Debouncer, out: seq<Delivery>)
  {
    && (|out| == 0 <==> d.lastDelivered.None?)
    && (|out| > 0 ==> d.lastDelivered == Some(out[|out| - 1].text) && out[|out| - 1].at < |events|)
  }

  /** Every delivery so far is a quiet one. */
  ghost predicate AllQuiet(events: seq<SearchEvent>, out: seq<Delivery>)
  {
    forall k :: 0 <= k < |out| ==> QuietDelivery(events, out[k])
  }

  /** Consecutive deliveries differ and come from ever later events. */
  ghost predicate ConsecutiveDistinct(out: seq<Delivery>)
  {
    forall k :: 0 < k < |out| ==> out[k - 1].text != out[k].text && out[k - 1].at < out[k].at
  }

  /** The four facts `Run` keeps, for a state and deliveries after `events`. */
  ghost predicate Consistent(events: seq<SearchEvent>, d: Debouncer, out: seq<Delivery>)
  {
    && PendingIsLastEdit(events, d)
    && RemembersLastDelivery(events, d, out)
    && AllQuiet(events, out)
    && ConsecutiveDistinct(out)
  }

  /** What `Run` keeps true along any trace. */
  ghost predicate RunInvariant(events: seq<SearchEvent>)
  {
    Consistent(events, Run(events).0, Run(events).1)
  }

  lemma QuietDeliveryExtends(events: seq<SearchEvent>, e: SearchEvent, dv: Delivery)
    requires QuietDelivery(events, dv)
    ensures QuietDelivery(events + [e], dv)
  {
    assert (events + [e])[..dv.at] == events[..dv.at];
  }

  lemma AllQuietExtends(events: seq<SearchEvent>, e: SearchEvent, out: seq<Delivery>)
    requires AllQuiet(events, out)
    ensures AllQuiet(events + [e], out)
  {
    forall k | 0 <= k < |out| ensures QuietDelivery(events + [e], out[k]) {
      QuietDeliveryExtends(events, e, out[k]);
    }
  }

  /** A text change keeps the facts: it becomes the pending text and the
      last edit, and the deliveries so far stay quiet. */
  lemma InputKeepsInvariant(pre: seq<SearchEvent>, d: Debouncer, out: seq<Delivery>, time: int, text: string)
    requires Consistent(pre, d, out)
    ensures Consistent(pre + [TextChanged(time, text)], Input(d, text, time), out)
  {
    var events := pre + [TextChanged(time, text)];
    assert events[..|pre|] == pre;
    assert LastEdit(events) == Some(|pre|);
    AllQuietExtends(pre, TextChanged(time, text), out);
  }

  lemma AllQuietAppend(events: seq<SearchEvent>, out: seq<Delivery>, dv: Delivery)
    requires AllQuiet(events, out) && QuietDelivery(events, dv)
    ensures AllQuiet(events, out + [dv])
  {
    forall k | 0 <= k < |out| + 1 ensures QuietDelivery(events, (out + [dv])[k]) {
      if k < |out| {
        assert (out + [dv])[k] == out[k];
      }
    }
  }

  lemma ConsecutiveDistinctAppend(out: seq<Delivery>, dv: Delivery)
    requires ConsecutiveDistinct(out)
    requires |out| > 0 ==> out[|out| - 1].text != dv.text && out[|out| - 1].at < dv.at
    ensures ConsecutiveDistinct(out + [dv])
  {
    forall k | 0 < k < |out| + 1
      ensures (out + [dv])[k - 1].text != (out + [dv])[k].text && (out + [dv])[k - 1].at < (out + [dv])[k].at
    {
      if k < |out| {
        assert (out + [dv])[k - 1] == out[k - 1] && (out + [dv])[k] == out[k];
      }
    }
  }

  /** A clock event that delivers keeps the facts: it carries the pending
      text, which is the last edit, its deadline has passed, and it differs
      from the delivery before it. */
  lemma FireDeliveringKeepsInvariant(pre: seq<SearchEvent>, d: Debouncer, out: seq<Delivery>, time: int)
    requires Consistent(pre, d, out)
    requires Fire(d, time).1.Some?
    ensures Consistent(pre + [ClockAdvanced(time)], Fire(d, time).0, out + [Delivery(|pre|, Fire(d, time).1.value)])
  {
    var events := pre + [ClockAdvanced(time)];
    var dv := Delivery(|pre|, d.pending.value.text);
    assert Fire(d, time).0 == Debouncer(None, Some(dv.text));
    assert events[..|pre|] == pre;
    assert QuietDelivery(events, dv);
    AllQuietExtends(pre, ClockAdvanced(time), out);
    AllQuietAppend(events, out, dv);
    ConsecutiveDistinctAppend(out, dv);
  }

  /** A clock event that delivers nothing keeps the facts. */
  lemma FireSilentKeepsInvariant(pre: seq<SearchEvent>, d: Debouncer, out: seq<Delivery>, time: int)
    requires Consistent(pre, d, out)
    requires Fire(d, time).1.None?
    ensures Consistent(pre + [ClockAdvanced(time)], Fire(d, time).0, out)
  {
    var events := pre + [ClockAdvanced(time)];
    assert events[..|pre|] == pre;
    assert LastEdit(events) == LastEdit(pre);
    AllQuietExtends(pre, ClockAdvanced(time), out);
  }

  /** One more event keeps the invariant. */
  lemma StepKeepsInvariant(pre: seq<SearchEvent>, e: SearchEvent)
    requires RunInvariant(pre)
    ensures RunInvariant(pre + [e])
  {
    RunStep(pre, e);
    var d, out := Run(pre).0, Run(pre).1;
    match e
    case TextChanged(t, v) => InputKeepsInvariant(pre, d, out, t, v);
    case ClockAdvanced(t) =>
      if Fire(d, t).1.Some? {
        FireDeliveringKeepsInvariant(pre, d, out, t);
      } else {
        FireSilentKeepsInvariant(pre, d, out, t);
      }
  }

  /** Every trace keeps the invariant: the pending text is the latest edit,
      every delivery is a quiet one, and no two consecutive deliveries carry
      the same text. */
  lemma {:induction false} RunKeepsInvariant(events: seq<SearchEvent>)
    ensures RunInvariant(events)
    decreases |events|
  {
    if events != [] {
      var pre := events[..|events| - 1];
      assert events == pre + [events[|events| - 1]];
      RunKeepsInvariant(pre);
      StepKeepsInvariant(pre, events[|events| - 1]);
    }
  }

  /** Deliveries are made only after a quiet period: each carries the text of
      the last change before it, made at least 0.5 s earlier. */
  lemma DeliveriesAreQuiet(events: seq<SearchEvent>, k: nat)
    requires k < |Run(events).1|
    ensures QuietDelivery(events, Run(events).1[k])
  {
    RunKeepsInvariant(events);
  }

  /** The duplicate filter: two consecutive deliveries never carry the same text. */
  lemma ConsecutiveDeliveriesDiffer(events: seq<SearchEvent>, k: nat)
    requires 0 < k < |Run(events).1|
    ensures Run(events).1[k - 1].text != Run(events).1[k].text
  {
    RunKeepsInvariant(events);
  }

  /** Event times never go backwards. */
  ghost predicate Chronological(events: seq<SearchEvent>)
  {
    forall i, j :: 0 <= i < j < |events| ==> events[i].time <= events[j].time
  }

  /** Within a burst of typing in real time, a text replaced by another text
      less than 0.5 s later is never delivered: only the value that stays put
      for the whole interval reaches the handler. */
  lemma {:induction false} SupersededTextNeverDelivered(events: seq<SearchEvent>, i: nat, m: nat, k: nat)
    requires Chronological(events)
    requires i < m < |events|
    requires events[i].TextChanged? && events[m].TextChanged?
    requires events[m].time < events[i].time + DebounceMs
    requires k < |Run(events).1|
    ensures Run(events).1[k].at < |events| && LastEdit(events[..Run(events).1[k].at]) != Some(i)
  {
    RunKeepsInvariant(events);
    var dv := Run(events).1[k];
    assert QuietDelivery(events, dv);
    if m < dv.at {
      // the later change m lies before the clock event, so i is not the last change
      assert events[..dv.at][m].TextChanged?;
    } else {
      // the clock event comes no later than m, too early for i's timer
      assert dv.at != m;
      assert events[dv.at].time <= events[m].time;
    }
  }
}
