/** What the two pipeline variants share besides the stages: the planner's
    step list, the fold of the per-step answers into the reduction stage's
    input, and the `run_agent` post-processing that appends the reference
    marker to the final answer. */
module Pipeline {
  import opened Events
  import opened Text
  import opened Stages

  /** The planner's three steps, identified by their step numbers. */
  const PlannerSteps: seq<nat> := [1, 2, 3]

  /** The planner's step list, as far as proofs that hide it need it. */
  lemma PlannerShape()
    ensures |PlannerSteps| == 3 && Sorted(PlannerSteps)
  {
  }

  /** The marker `run_agent` appends to the final answer. */
  const RefSuffix: string := "ref:1"

  /** The eager answers of the given steps, in step order. */
  function Answers(steps: seq<nat>): (r: seq<string>)
    ensures |r| == |steps|
    ensures forall i :: 0 <= i < |steps| ==> r[i] == QaAnswer(steps[i])
    decreases |steps|
  {
    if steps == [] then [] else [QaAnswer(steps[0])] + Answers(steps[1..])
  }

  /** The reference fold: every answer followed by one space, in order. */
  function Aggregate(answers: seq<string>): (r: string)
    ensures r == [] <==> answers == []
    ensures answers != [] ==> r[|r| - 1] == ' '
    decreases |answers|
  {
    if answers == [] then "" else answers[0] + " " + Aggregate(answers[1..])
  }

  /** `" ".join(answers)`. */
  function Join(answers: seq<string>): string
    requires |answers| > 0
    decreases |answers|
  {
    if |answers| == 1 then answers[0] else answers[0] + " " + Join(answers[1..])
  }

  lemma JoinThree(answers: seq<string>)
    requires |answers| == 3
    ensures Join(answers) == answers[0] + " " + answers[1] + " " + answers[2]
  {
    var t := answers[1..];
    assert t[1..] == [answers[2]];
    assert Join(t) == answers[1] + " " + answers[2];
  }

  /** The planner's steps answer `final_response...step:1` to `...step:3`. */
  lemma PlannerAnswers()
    ensures Answers(PlannerSteps) == ["final_response...step:1", "final_response...step:2", "final_response...step:3"]
  {
    var answers := Answers(PlannerSteps);
    assert Digits(1) == "1" && Digits(2) == "2" && Digits(3) == "3";
    assert |answers| == 3;
    assert answers[0] == QaAnswer(1) == "final_response...step:" + "1" == "final_response...step:1";
    assert answers[1] == QaAnswer(2) == "final_response...step:" + "2" == "final_response...step:2";
    assert answers[2] == QaAnswer(3) == "final_response...step:" + "3" == "final_response...step:3";
  }

  /** One turn of the planner loop adds the first step's answer and a
      space to an accumulator: after it, the rest of the fold is missing. */
  lemma AggregateStep(steps: seq<nat>, aggregated: string)
    requires steps != []
    ensures aggregated + QaAnswer(steps[0]) + " " + Aggregate(Answers(steps[1..])) == aggregated + Aggregate(Answers(steps))
  {
    var answers, x := Answers(steps), QaAnswer(steps[0]);
    assert answers[1..] == Answers(steps[1..]);
    assert Aggregate(answers) == x + " " + Aggregate(answers[1..]);
    var rest := Aggregate(answers[1..]);
    hide *;
    ConcatAssoc(aggregated + x, " ", rest);
    ConcatAssoc(aggregated, x, " " + rest);
    ConcatAssoc(x, " ", rest);
  }

  /** The fold is the space-joined answers plus one trailing space. */
  lemma {:induction false} AggregateIsJoinPlusSpace(answers: seq<string>)
    requires |answers| > 0
    ensures Aggregate(answers) == Join(answers) + " "
    decreases |answers|
  {
    if |answers| > 1 {
      AggregateIsJoinPlusSpace(answers[1..]);
    } else {
      assert answers[1..] == [];
    }
  }

  lemma {:induction false} JoinTrimmed(answers: seq<string>)
    requires |answers| > 0
    requires forall i :: 0 <= i < |answers| ==> Trimmed(answers[i])
    ensures Trimmed(Join(answers))
    decreases |answers|
  {
    if |answers| > 1 {
      var rest := answers[1..];
      assert forall i :: 0 <= i < |rest| ==> rest[i] == answers[i + 1];
      JoinTrimmed(rest);
    } else {
      assert Trimmed(answers[0]);
    }
  }

  /** The reduction stage strips exactly the fold's trailing space when no
      answer has surrounding whitespace: it sees `"p1 p2 ... pn"`. */
  lemma StripAggregate(answers: seq<string>)
    requires forall i :: 0 <= i < |answers| ==> Trimmed(answers[i])
    ensures Strip(Aggregate(answers)) == if answers == [] then "" else Join(answers)
  {
    if answers != [] {
      AggregateIsJoinPlusSpace(answers);
      JoinTrimmed(answers);
      StripDropsTrailingSpace(Join(answers));
    } else {
      StripKeepsCore("", 0, 0);
    }
  }

  /** Every eager answer is free of surrounding whitespace. */
  lemma AnswersTrimmed(steps: seq<nat>)
    ensures forall i :: 0 <= i < |steps| ==> Trimmed(Answers(steps)[i])
  {
    hide *;
  }

  /** The reduction stage's stripped input is the space-joined eager
      answers. */
  lemma StrippedFold(steps: seq<nat>)
    ensures Strip(Aggregate(Answers(steps))) == if steps == [] then "" else Join(Answers(steps))
  {
    AnswersTrimmed(steps);
    StripAggregate(Answers(steps));
  }

  /** For the planner's steps that input is the three answers, space
      separated. */
  lemma PlannerFold()
    ensures Strip(Aggregate(Answers(PlannerSteps))) ==
            "final_response...step:1" + " " + "final_response...step:2" + " " + "final_response...step:3"
  {
    PlannerShape();
    hide *;
    StrippedFold(PlannerSteps);
    PlannerAnswers();
    JoinThree(Answers(PlannerSteps));
  }

  /** The event `run_agent` puts in place of a `final_reformat` event: a
      fresh `final_reformat` dictionary whose data carries the marker. */
  function WithRef(e: Event): (r: Event)
    ensures r.kind == FinalReformat && r.step == None
    ensures |r.data| == |e.data| + |RefSuffix| && r.data[..|e.data|] == e.data
    ensures r.data[|e.data|..] == RefSuffix
  {
    Event(FinalReformat, None, e.data + RefSuffix)
  }

  /** The rewritten event, spelled out, for proofs that hide bodies. */
  lemma WithRefAppends(e: Event)
    ensures WithRef(e) == Event(FinalReformat, None, e.data + RefSuffix)
  {
  }

  /** The streaming `run_agent` wrapper: rewrites every `final_reformat`
      event with `WithRef` and passes every other event through unchanged,
      in order. */
  function AttachRef(events: seq<Event>): (r: seq<Event>)
    ensures |r| == |events|
    ensures forall i :: 0 <= i < |events| && events[i].kind != FinalReformat ==> r[i] == events[i]
    ensures forall i :: 0 <= i < |events| && events[i].kind == FinalReformat ==> r[i] == WithRef(events[i])
    decreases |events|
  {
    if events == [] then []
    else
      var head := if events[0].kind == FinalReformat then WithRef(events[0]) else events[0];
      [head] + AttachRef(events[1..])
  }

  /** On a stream whose one `final_reformat` event is its last, the
      wrapper leaves every event but the last alone and rewrites the last. */
  lemma AttachRefAtEnd(events: seq<Event>)
    requires |events| > 0 && Last(events).kind == FinalReformat
    requires forall k :: 0 <= k < |events| - 1 ==> events[k].kind != FinalReformat
    ensures var r := AttachRef(events);
            && |r| == |events|
            && (forall k :: 0 <= k < |r| - 1 ==> r[k] == events[k])
            && Last(r) == WithRef(Last(events))
  {
    hide *;
  }

  /** The rewrite keeps every event's kind, so it commutes with any filter
      on kinds: filtering the rewritten stream is rewriting the filtered
      one. */
  lemma {:induction false} FilterAttachRef(events: seq<Event>, keep: Kind -> bool)
    ensures Filter(AttachRef(events), keep) == AttachRef(Filter(events, keep))
    decreases |events|
  {
    if events != [] {
      var e, rest := events[0], events[1..];
      var out := AttachRef(events);
      assert out[1..] == AttachRef(rest);
      assert out[0].kind == e.kind;
      FilterAttachRef(rest, keep);
      if keep(e.kind) {
        var kept := Filter(events, keep);
        assert kept == [e] + Filter(rest, keep);
        assert kept[0] == e && kept[1..] == Filter(rest, keep);
      } else {
        assert Filter(events, keep) == Filter(rest, keep);
      }
    }
  }

  /** The marker appears in a stream exactly once: in no event but the
      last, and in the last event's data only at its end. */
  ghost predicate MarkedOnceAtEnd(out: seq<Event>) {
    && |out| > 0
    && (forall k :: 0 <= k < |out| - 1 ==> !Contains(out[k].data, RefSuffix))
    && (forall i: nat :: OccursAt(Last(out).data, RefSuffix, i) <==> i == |Last(out).data| - |RefSuffix|)
  }

  /** Every colon in `s` directly follows a `p`, as in `"step:"`: such a
      string cannot contain the marker, whose colon follows an `f`. */
  predicate ColonsAfterP(s: string) {
    forall i :: 0 <= i < |s| && s[i] == ':' ==> 0 < i && s[i - 1] == 'p'
  }

  lemma ColonsAfterPConcat(a: string, b: string)
    requires ColonsAfterP(a) && ColonsAfterP(b)
    ensures ColonsAfterP(a + b)
  {
    var s := a + b;
    forall i | 0 <= i < |s| && s[i] == ':'
      ensures 0 < i && s[i - 1] == 'p'
    {
      if i >= |a| {
        assert b[i - |a|] == ':';
      }
    }
  }

  lemma DigitsColonFree(n: nat)
    ensures ColonsAfterP(Digits(n))
  {
    var s := Digits(n);
    assert forall i :: 0 <= i < |s| ==> IsDigit(s[i]);
  }

  lemma QaAnswerColons(step: nat)
    ensures ColonsAfterP(QaAnswer(step))
  {
    assert ColonsAfterP("final_response...step:");
    NumberedColons("final_response...step:", step);
  }

  /** No payload whose colons all follow a `p` contains the marker. */
  lemma NoMarker(s: string)
    requires ColonsAfterP(s)
    ensures !Contains(s, RefSuffix)
  {
    forall i: nat | i <= |s|
      ensures !OccursAt(s, RefSuffix, i)
    {
      if i + 5 <= |s| {
        ColonBreaksMarker(s, i);
      }
    }
  }

  /** Five characters of such a payload never spell the marker: either the
      fourth is not a colon, or the third is a `p`. */
  lemma ColonBreaksMarker(s: string, i: nat)
    requires ColonsAfterP(s) && i + 5 <= |s|
    ensures s[i..i + 5] != RefSuffix
  {
    var w := s[i..i + 5];
    if s[i + 3] == ':' {
      assert w[2] == s[i + 2] == 'p';
      assert w[2] != RefSuffix[2];
    } else {
      assert w[3] == s[i + 3] != RefSuffix[3];
    }
  }

  /** Appending the marker to such a payload makes it occur exactly once,
      at the very end. */
  lemma MarkerOnceAtEnd(raw: string)
    requires ColonsAfterP(raw)
    ensures forall i: nat :: OccursAt(raw + RefSuffix, RefSuffix, i) <==> i == |raw|
  {
    var s := raw + RefSuffix;
    assert s[|raw|..|raw| + 5] == RefSuffix;
    forall i: nat | i != |raw| && i + 5 <= |s|
      ensures !OccursAt(s, RefSuffix, i)
    {
      if i + 5 <= |raw| {
        ColonBreaksMarker(raw, i);
        assert s[i..i + 5] == raw[i..i + 5];
      } else {
        // the window overlaps the appended marker, but no proper suffix of
        // "ref:1" is a prefix of it: the window's `r` sits where the
        // marker has no `r`
        var d := |raw| - i;
        assert s[i..i + 5][d] == s[|raw|] == 'r';
        assert RefSuffix[d] != 'r';
      }
    }
  }

  /** Wrapping a stream whose one `final_reformat` event is its last and
      whose payloads have their colons after a `p` marks it exactly once. */
  lemma AttachRefMarksOnce(events: seq<Event>)
    requires |events| > 0 && Last(events).kind == FinalReformat
    requires forall k :: 0 <= k < |events| - 1 ==> events[k].kind != FinalReformat
    requires forall k :: 0 <= k < |events| ==> ColonsAfterP(events[k].data)
    ensures MarkedOnceAtEnd(AttachRef(events))
  {
    hide AttachRef, WithRef, Contains, OccursAt, ColonsAfterP;
    var out := AttachRef(events);
    AttachRefAtEnd(events);
    WithRefAppends(Last(events));
    forall k | 0 <= k < |out| - 1
      ensures !Contains(out[k].data, RefSuffix)
    {
      NoMarker(events[k].data);
    }
    MarkerOnceAtEnd(Last(events).data);
  }

  /** Every answer the planner's steps produce, and hence the reduction
      stage's stripped input, has its colons after a `p`. */
  lemma {:induction false} AggregateColons(steps: seq<nat>)
    ensures ColonsAfterP(Strip(Aggregate(Answers(steps))))
  {
    var answers := Answers(steps);
    forall i | 0 <= i < |answers|
      ensures Trimmed(answers[i])
    {
      assert answers[i] == QaAnswer(steps[i]);
    }
    StripAggregate(answers);
    if answers != [] {
      JoinColons(answers, steps);
    }
  }

  lemma {:induction false} JoinColons(answers: seq<string>, steps: seq<nat>)
    requires |answers| > 0 && |answers| == |steps|
    requires forall i :: 0 <= i < |answers| ==> answers[i] == QaAnswer(steps[i])
    ensures ColonsAfterP(Join(answers))
    decreases |answers|
  {
    QaAnswerColons(steps[0]);
    if |answers| > 1 {
      JoinColons(answers[1..], steps[1..]);
      assert ColonsAfterP(" ");
      ColonsAfterPConcat(answers[0], " ");
      ColonsAfterPConcat(answers[0] + " ", Join(answers[1..]));
    }
  }

  /** A fixed prefix whose colons follow a `p`, then a rendered number. */
  lemma NumberedColons(prefix: string, n: nat)
    requires ColonsAfterP(prefix)
    ensures ColonsAfterP(prefix + Digits(n))
  {
    DigitsColonFree(n);
    ColonsAfterPConcat(prefix, Digits(n));
  }

  lemma QaLabelsColons(step: nat)
    ensures forall i :: 0 <= i < 4 ==> ColonsAfterP(QaLabels(step)[i])
  {
    assert ColonsAfterP("thinking 1...step:") && ColonsAfterP("thinking 2...step:");
    assert ColonsAfterP("thinking 3...step:") && ColonsAfterP("thinking 4...step:");
    NumberedColons("thinking 1...step:", step);
    NumberedColons("thinking 2...step:", step);
    NumberedColons("thinking 3...step:", step);
    NumberedColons("thinking 4...step:", step);
  }

  /** Every payload a step's stream carries has its colons after a `p`. */
  lemma QaStreamColons(step: nat)
    ensures forall i :: 0 <= i < |QaStream(step)| ==> ColonsAfterP(QaStream(step)[i].data)
  {
    QaLabelsColons(step);
    QaAnswerColons(step);
    hide *;
  }

  /** A string without colons trivially has all its colons after a `p`. */
  lemma ColonFree(s: string)
    requires ':' !in s
    ensures ColonsAfterP(s)
  {
  }

  lemma ReformatLabelsColons()
    ensures forall i :: 0 <= i < 4 ==> ColonsAfterP(ReformatLabels[i])
  {
    ColonFree(ReformatLabels[0]);
    ColonFree(ReformatLabels[1]);
    ColonFree(ReformatLabels[2]);
    ColonFree(ReformatLabels[3]);
  }

  /** Every payload the reduction stage streams has its colons after a `p`
      when its stripped input does. */
  lemma ReformatStreamColons(input: string)
    requires ColonsAfterP(Strip(input))
    ensures forall i :: 0 <= i < |ReformatStream(input)| ==> ColonsAfterP(ReformatStream(input)[i].data)
  {
    hide *;
    ReformatLabelsColons();
    ColonFree("final_response...");
    ColonsAfterPConcat("final_response...", Strip(input));
  }

  predicate Sorted(steps: seq<nat>) {
    forall i, j :: 0 <= i <= j < |steps| ==> steps[i] <= steps[j]
  }

  /** Reading a stream front to back, the step numbers of the events that
      carry one never go down. */
  predicate StepsNondecreasing(out: seq<Event>) {
    forall i, j :: 0 <= i <= j < |out| && out[i].step.Some? && out[j].step.Some? ==>
                     out[i].step.value <= out[j].step.value
  }

  lemma DivMonotone(i: nat, j: nat, b: nat)
    requires i <= j && b > 0
    ensures i / b <= j / b
  {
    assert j == b * (j / b) + j % b;
    assert i < b * (j / b) + b == b * (j / b + 1);
    DivBound(i, b, j / b + 1);
  }

  /** A stream made of one block of `b` events per step, in step order,
      followed by untagged events, lists step numbers in nondecreasing order
      when the steps are sorted. */
  lemma BlockedStepsNondecreasing(out: seq<Event>, steps: seq<nat>, b: nat)
    requires b > 0 && b * |steps| <= |out|
    requires Sorted(steps)
    requires forall k :: 0 <= k < b * |steps| ==> out[k].step == Some(steps[k / b])
    requires forall k :: b * |steps| <= k < |out| ==> out[k].step == None
    ensures StepsNondecreasing(out)
  {
    forall i, j | 0 <= i <= j < |out| && out[i].step.Some? && out[j].step.Some?
      ensures out[i].step.value <= out[j].step.value
    {
      DivMonotone(i, j, b);
      assert j < b * |steps|;
      DivBound(j, b, |steps|);
      DivBound(i, b, |steps|);
    }
  }

  lemma DivBound(k: nat, b: nat, n: nat)
    requires b > 0 && k < b * n
    ensures k / b < n
  {
    assert b * (k / b) <= k;
  }
}
