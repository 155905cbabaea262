/** Event records exchanged between the stages, the aggregators and the agent,
    and the "last event of a kind" scan both pipelines use to pick results
    out of a stream. */
module Events {

  datatype Option<+T> = None | Some(value: T)

  /** Failure of a Python operation, carrying the exception's message. */
  datatype Result<+T> = Ok(value: T) | Failure(error: string)

  /** The four values of an event dictionary's "event" key. */
  datatype Kind = QaThinking | FinalQa | ReformatThinking | FinalReformat

  /** An event dictionary: its "event" key, its optional "step" key (only
      per-step events carry one) and its "data" string. */
  datatype Event = Event(kind: Kind, step: Option<nat>, data: string)

  /** What a stage or pipeline call hands back: an async generator (modelled
      as the finite sequence of events it yields), one event dictionary, or
      Python's `None`. */
  datatype Source = Stream(events: seq<Event>) | Single(event: Event) | Nothing

  /** The last element; its contract keeps it usable where bodies are
      hidden. */
  function Last<T>(s: seq<T>): (r: T)
    requires |s| > 0
    ensures r == s[|s| - 1]
  {
    s[|s| - 1]
  }

  lemma ConcatAssoc<T>(a: seq<T>, b: seq<T>, c: seq<T>)
    ensures (a + b) + c == a + (b + c)
  {
  }

  /** Prepending a block keeps it as the prefix and keeps the last element. */
  lemma PrependBlock<T>(head: seq<T>, rest: seq<T>)
    requires |rest| > 0
    ensures |head + rest| == |head| + |rest|
    ensures (head + rest)[..|head|] == head
    ensures (head + rest)[|head + rest| - 1] == rest[|rest| - 1]
  {
  }

  /** No event of `a + b` has `kind` when none of `a` or `b` has. */
  lemma NoKindConcat(a: seq<Event>, b: seq<Event>, kind: Kind)
    requires forall k :: 0 <= k < |a| ==> a[k].kind != kind
    requires forall k :: 0 <= k < |b| ==> b[k].kind != kind
    ensures forall k :: 0 <= k < |a + b| ==> (a + b)[k].kind != kind
  {
  }

  /** Only the last event of `a + b` can have `kind` when neither `a` nor
      `b` but `b`'s last event has it. */
  lemma OnlyLastOfKind(a: seq<Event>, b: seq<Event>, kind: Kind)
    requires forall k :: 0 <= k < |a| ==> a[k].kind != kind
    requires forall k :: 0 <= k < |b| - 1 ==> b[k].kind != kind
    ensures forall k :: 0 <= k < |a + b| - 1 ==> (a + b)[k].kind != kind
  {
  }

  /** Drains a stream while remembering the latest event of `kind`, starting
      from `found`: the result is the last event of that kind, or `found`
      when the stream has none. */
  function ScanLast(events: seq<Event>, kind: Kind, found: Option<Event>): (r: Option<Event>)
    ensures (forall i :: 0 <= i < |events| ==> events[i].kind != kind) ==> r == found
    ensures forall i :: 0 <= i < |events| && events[i].kind == kind &&
                        (forall j :: i < j < |events| ==> events[j].kind != kind) ==>
                          r == Some(events[i])
    decreases |events|
  {
    if events == [] then found
    else
      var rest := events[1..];
      assert forall j :: 0 <= j < |rest| ==> rest[j] == events[j + 1];
      ScanLast(rest, kind, if events[0].kind == kind then Some(events[0]) else found)
  }

  /** When a stream ends with an event of `kind`, scanning it yields that
      final event, whatever was found before. */
  lemma ScanLastEndsWith(events: seq<Event>, kind: Kind, found: Option<Event>)
    requires |events| > 0 && Last(events).kind == kind
    ensures ScanLast(events, kind, found) == Some(Last(events))
  {
  }

  /** The events whose kind satisfies `keep`, in their original order: an
      `async for` loop that yields an event only under a test on its kind. */
  function Filter(events: seq<Event>, keep: Kind -> bool): (r: seq<Event>)
    ensures |r| <= |events|
    ensures forall e :: e in r <==> e in events && keep(e.kind)
    ensures forall k :: 0 <= k < |r| ==> keep(r[k].kind)
    decreases |events|
  {
    if events == [] then []
    else (if keep(events[0].kind) then [events[0]] else []) + Filter(events[1..], keep)
  }

  /** Filtering a concatenation filters each part in turn. */
  lemma {:induction false} FilterConcat(a: seq<Event>, b: seq<Event>, keep: Kind -> bool)
    ensures Filter(a + b, keep) == Filter(a, keep) + Filter(b, keep)
    decreases |a|
  {
    if a != [] {
      assert (a + b)[1..] == a[1..] + b;
      FilterConcat(a[1..], b, keep);
    } else {
      assert a + b == b;
    }
  }

  /** A filter every event passes keeps the whole stream. */
  lemma {:induction false} FilterKeepsAll(events: seq<Event>, keep: Kind -> bool)
    requires forall k :: 0 <= k < |events| ==> keep(events[k].kind)
    ensures Filter(events, keep) == events
    decreases |events|
  {
    if events != [] {
      FilterKeepsAll(events[1..], keep);
    }
  }
}
