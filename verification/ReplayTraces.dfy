/**
 * Traces of calls to a destination that may refuse any of them.
 */
module ReplayTraces {
  /** What a call came to: success, with whatever it created, or a refusal. */
  datatype Answer<+T> = Created(value: T) | Conflict | BadRequest | Failed
  datatype Event<+C, +T> = Event(call: C, answer: Answer<T>)

  /** All of these calls succeeded. */
  ghost predicate Done<C, T>(events: seq<Event<C, T>>, calls: seq<C>) {
    |events| == |calls| && forall i :: 0 <= i < |events| ==> events[i].call == calls[i] && events[i].answer.Created?
  }

  /** The calls were made in order up to one that was refused. */
  ghost predicate Refused<C, T>(events: seq<Event<C, T>>, calls: seq<C>) {
    && 0 < |events| <= |calls|
    && Done(events[..|events| - 1], calls[..|events| - 1])
    && events[|events| - 1].call == calls[|events| - 1] && !events[|events| - 1].answer.Created?
  }

  /** The calls were made in order until one was refused, if any was. */
  ghost predicate Tried<C, T>(events: seq<Event<C, T>>, calls: seq<C>) {
    Done(events, calls) || Refused(events, calls)
  }

  /** None of these events ends the run; `survived` tells which do not. */
  ghost predicate Survives<C, T>(events: seq<Event<C, T>>, survived: Event<C, T> -> bool) {
    forall e :: e in events ==> survived(e)
  }

  /** The last of these events ends the run, and no other does. */
  ghost predicate Ends<C, T>(events: seq<Event<C, T>>, survived: Event<C, T> -> bool) {
    events != [] && !survived(events[|events| - 1]) && Survives(events[..|events| - 1], survived)
  }

  /** Whether the run goes on after these events. */
  ghost predicate Ended<C, T>(events: seq<Event<C, T>>, goOn: bool, survived: Event<C, T> -> bool) {
    if goOn then Survives(events, survived) else Ends(events, survived)
  }

  lemma {:induction false} EndedThen<C, T>(events: seq<Event<C, T>>, more: seq<Event<C, T>>, goOn: bool, survived: Event<C, T> -> bool)
    requires Survives(events, survived) && Ended(more, goOn, survived)
    ensures Ended(events + more, goOn, survived)
  {
    if !goOn {
      assert (events + more)[..|events + more| - 1] == events + more[..|more| - 1];
    }
  }

  lemma {:induction false} NotBothWays<C, T>(events: seq<Event<C, T>>, survived: Event<C, T> -> bool)
    ensures Survives([], survived) && !(Survives(events, survived) && Ends(events, survived))
  {
  }

  /** Calls that were tried go on unless the refusal is one that ends the run. */
  lemma {:induction false} TriedEnds<C, T>(events: seq<Event<C, T>>, calls: seq<C>, survived: Event<C, T> -> bool)
    requires forall e :: e in events && e.answer.Created? ==> survived(e)
    ensures Done(events, calls) ==> Survives(events, survived)
    ensures Refused(events, calls) ==> Ended(events, survived(events[|events| - 1]), survived)
  {
    if Refused(events, calls) {
      assert forall e :: e in events[..|events| - 1] ==> e.answer.Created? && e in events;
      assert events == events[..|events| - 1] + [events[|events| - 1]];
    }
  }

  /** How many of the events are of this kind. */
  function Count<E>(events: seq<E>, kind: E -> bool): nat {
    if events == [] then 0 else Count(events[..|events| - 1], kind) + if kind(events[|events| - 1]) then 1 else 0
  }

  lemma {:induction false} CountThen<E>(events: seq<E>, more: seq<E>, kind: E -> bool)
    ensures Count(events + more, kind) == Count(events, kind) + Count(more, kind)
  {
    if more == [] {
      assert events + more == events;
    } else {
      assert (events + more)[..|events + more| - 1] == events + more[..|more| - 1];
      CountThen(events, more[..|more| - 1], kind);
    }
  }

  lemma {:induction false} CountNone<E>(events: seq<E>, kind: E -> bool)
    requires forall e :: e in events ==> !kind(e)
    ensures Count(events, kind) == 0
  {
    if events != [] { CountNone(events[..|events| - 1], kind); }
  }

  /** Of calls that were tried only the refusal can be one. */
  lemma {:induction false} CountTried<C, T>(events: seq<Event<C, T>>, calls: seq<C>, kind: Event<C, T> -> bool)
    requires Tried(events, calls) && forall e :: e in events && e.answer.Created? ==> !kind(e)
    ensures Count(events, kind) == if Refused(events, calls) && kind(events[|events| - 1]) then 1 else 0
  {
    if Refused(events, calls) {
      var rest := events[..|events| - 1];
      assert forall e :: e in rest ==> e.answer.Created? && e in events;
      CountNone(rest, kind);
    } else {
      CountNone(events, kind);
    }
  }

  function Flatten<E>(segments: seq<seq<E>>): seq<E> {
    if segments == [] then [] else Flatten(segments[..|segments| - 1]) + segments[|segments| - 1]
  }

  lemma {:induction false} FlattenMore<E>(segments: seq<seq<E>>, more: seq<E>)
    ensures Flatten(segments + [more]) == Flatten(segments) + more
  {
    assert (segments + [more])[..|segments|] == segments;
  }

  /** One round of a loop more, in a trace that began as `before`. */
  lemma {:induction false} RoundMore<C, T>(before: seq<Event<C, T>>, segments: seq<seq<Event<C, T>>>, more: seq<Event<C, T>>,
                                           goOn: bool, survived: Event<C, T> -> bool)
    requires Ended(Flatten(segments), true, survived) && Ended(more, goOn, survived)
    ensures (before + Flatten(segments)) + more == before + Flatten(segments + [more])
    ensures Ended(Flatten(segments + [more]), goOn, survived)
  {
    FlattenMore(segments, more);
    EndedThen(Flatten(segments), more, goOn, survived);
  }

  lemma {:induction false} CountRound<E>(segments: seq<seq<E>>, more: seq<E>, kind: E -> bool)
    ensures Count(Flatten(segments + [more]), kind) == Count(Flatten(segments), kind) + Count(more, kind)
  {
    FlattenMore(segments, more);
    CountThen(Flatten(segments), more, kind);
  }

  lemma {:induction false} NoneEnds<C, T>(survived: Event<C, T> -> bool)
    ensures Flatten<Event<C, T>>([]) == [] && Ended<C, T>([], true, survived)
  {
  }

  /** Trying a list is trying its first part and, if all of that succeeded, the
      rest. */
  lemma {:induction false} TriedThen<C, T>(events: seq<Event<C, T>>, calls: seq<C>, more: seq<Event<C, T>>, rest: seq<C>)
    requires Done(events, calls)
    ensures Done(more, rest) ==> Done(events + more, calls + rest)
    ensures Refused(more, rest) ==> Refused(events + more, calls + rest)
  {
    if Refused(more, rest) {
      var all, last := events + more, |more| - 1;
      assert all[..|all| - 1] == events + more[..last] && (calls + rest)[..|all| - 1] == calls + rest[..last];
    }
  }

  lemma {:induction false} RefusedEarly<C, T>(events: seq<Event<C, T>>, calls: seq<C>, rest: seq<C>)
    requires Refused(events, calls)
    ensures Refused(events, calls + rest)
  {
    assert (calls + rest)[..|events| - 1] == calls[..|events| - 1];
  }

  lemma {:induction false} TriedCalls<C, T>(events: seq<Event<C, T>>, calls: seq<C>)
    requires Tried(events, calls)
    ensures forall e :: e in events ==> e.call in calls
    ensures |events| <= |calls| && forall i :: 0 <= i < |events| ==> events[i].call == calls[i]
    ensures forall i :: 0 <= i < |events| - 1 ==> events[i].answer.Created?
    ensures Done(events, calls) <==> |events| == |calls| && forall i :: 0 <= i < |events| ==> events[i].answer.Created?
    ensures Refused(events, calls) ==> events != [] && !events[|events| - 1].answer.Created?
  {
    forall i | 0 <= i < |events|
      ensures events[i].call == calls[i] && (i < |events| - 1 ==> events[i].answer.Created?)
    {
      if i < |events| - 1 && !Done(events, calls) { assert events[i] == events[..|events| - 1][i]; }
    }
  }

  lemma {:induction false} Once<C, T>(e: Event<C, T>)
    ensures if e.answer.Created? then Done([e], [e.call]) else Refused([e], [e.call])
  {
    assert [e][..0] == [] && [e.call][..0] == [];
  }

  /** One call more of a list: the next one, or the refusal it ends with. */
  lemma {:induction false} TryNext<C, T>(events: seq<Event<C, T>>, calls: seq<C>, n: nat, e: Event<C, T>)
    requires n < |calls| && Done(events, calls[..n]) && e.call == calls[n]
    ensures if e.answer.Created? then Done(events + [e], calls[..n + 1]) else Refused(events + [e], calls)
  {
    Once(e);
    TriedThen(events, calls[..n], [e], [e.call]);
    assert calls[..n] + [e.call] == calls[..n + 1];
    if !e.answer.Created? {
      RefusedEarly(events + [e], calls[..n + 1], calls[n + 1..]);
      assert calls[..n + 1] + calls[n + 1..] == calls;
    }
  }

  lemma {:induction false} NothingTried<C, T>(calls: seq<C>)
    ensures Done<C, T>([], calls[..0]) && calls[..|calls|] == calls
  {
  }
}
