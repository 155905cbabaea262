/** The pipeline variant that spells out both modes: streaming runs a
    generator that forwards only the per-step `qa_thinking` events (the
    per-step answers are captured, not shown) followed by the reduction
    stage's stream; eager calls every stage eagerly and returns the
    reduction stage's event. */
module MockStreaming {
  import opened Events
  import opened Text
  import opened Stages
  import opened Pipeline
  import AllYield = MockStreamingAllYield

  predicate IsThinking(kind: Kind) {
    kind == QaThinking
  }

  predicate NotFinalQa(kind: Kind) {
    kind != FinalQa
  }

  /** The inner `async for` of `_stream_all` over one step's stream: a
      `qa_thinking` event goes out, anything else does not. */
  function ForwardThinking(events: seq<Event>): (r: seq<Event>)
    ensures forall e :: e in r <==> e in events && e.kind == QaThinking
    ensures forall k :: 0 <= k < |r| ==> r[k].kind == QaThinking
  {
    Filter(events, IsThinking)
  }

  /** The thinking events of the given steps' streams, step after step. */
  function ThinkingPhase(steps: seq<nat>): (r: seq<Event>)
    ensures |r| == 4 * |steps|
    ensures forall k :: 0 <= k < |r| ==> r[k] == QaStream(steps[k / 4])[k % 4]
    decreases |steps|
  {
    if steps == [] then []
    else
      var tail := ThinkingPhase(steps[1..]);
      ThinkingBlocks(steps, tail);
      QaStream(steps[0])[..4] + tail
  }

  lemma ThinkingBlocks(steps: seq<nat>, tail: seq<Event>)
    requires steps != [] && |tail| == 4 * (|steps| - 1)
    requires forall k :: 0 <= k < |tail| ==> tail[k] == QaStream(steps[1..][k / 4])[k % 4]
    ensures var r := QaStream(steps[0])[..4] + tail;
            forall k :: 0 <= k < |r| ==> r[k] == QaStream(steps[k / 4])[k % 4]
  {
    hide *;
    var head, rest := QaStream(steps[0])[..4], steps[1..];
    var r := head + tail;
    forall k | 0 <= k < |r|
      ensures r[k] == QaStream(steps[k / 4])[k % 4]
    {
      if k < 4 {
        assert r[k] == head[k];
      } else {
        assert r[k] == tail[k - 4];
        assert (k - 4) / 4 == k / 4 - 1 && (k - 4) % 4 == k % 4;
        assert rest[k / 4 - 1] == steps[k / 4];
      }
    }
  }

  /** Any filter that passes `qa_thinking` and stops `final_qa` turns a
      step's stream into its four thinking events. */
  lemma StreamFilter(step: nat, keep: Kind -> bool)
    requires keep(QaThinking) && !keep(FinalQa)
    ensures Filter(QaStream(step), keep) == QaStream(step)[..4]
  {
    var es := QaStream(step);
    var thinking, last := es[..4], es[4..];
    assert es == thinking + last;
    FilterConcat(thinking, last, keep);
    FilterKeepsAll(thinking, keep);
    assert last == [es[4]];
    assert Filter(last, keep) == Filter(last[1..], keep);
  }

  /** Such a filter turns the whole per-step phase into the thinking phase. */
  lemma {:induction false} PhaseFilter(steps: seq<nat>, keep: Kind -> bool)
    requires keep(QaThinking) && !keep(FinalQa)
    ensures Filter(AllYield.QaPhase(steps), keep) == ThinkingPhase(steps)
    decreases |steps|
  {
    if steps != [] {
      var head, tail := QaStream(steps[0]), AllYield.QaPhase(steps[1..]);
      assert AllYield.QaPhase(steps) == head + tail;
      FilterConcat(head, tail, keep);
      StreamFilter(steps[0], keep);
      PhaseFilter(steps[1..], keep);
    }
  }

  /** A filter that passes both reformat kinds keeps the reduction stage's
      stream whole. */
  lemma ReformatPassesFilter(input: string, keep: Kind -> bool)
    requires keep(ReformatThinking) && keep(FinalReformat)
    ensures Filter(ReformatStream(input), keep) == ReformatStream(input)
  {
    hide *;
    var r := ReformatStream(input);
    assert forall k :: 0 <= k < |r| ==> keep(r[k].kind);
    FilterKeepsAll(r, keep);
  }

  /** `_stream_all` from the point where `steps` remain in the planner loop
      and `aggregated` holds the fold so far: each step's thinking events go
      out while its `final_qa` data is captured; once the steps are done the
      reduction stage's stream follows. */
  function StreamAllFrom(steps: seq<nat>, aggregated: string): (r: seq<Event>)
    ensures |r| > 0 && r[|r| - 1].kind == FinalReformat
    ensures forall k :: 0 <= k < |r| ==> r[k].kind != FinalQa
    decreases |steps|
  {
    if steps == [] then
      var r := ReformatExecute(aggregated, true).events;
      ReformatStreamKinds(aggregated);
      r
    else
      var events := QaExecute(steps[0], true).events;
      var thinking := ForwardThinking(events);
      var rest := StreamAllFrom(steps[1..], aggregated + CapturedAnswer(events) + " ");
      NoKindConcat(thinking, rest, FinalQa);
      PrependBlock(thinking, rest);
      thinking + rest
  }

  lemma StreamAllStep(steps: seq<nat>, aggregated: string)
    requires steps != []
    ensures StreamAllFrom(steps, aggregated) ==
            QaStream(steps[0])[..4] + StreamAllFrom(steps[1..], aggregated + QaAnswer(steps[0]) + " ")
  {
    CapturedAnswerIsEagerAnswer(steps[0]);
    StreamFilter(steps[0], IsThinking);
  }

  /** The generator is the thinking phase followed by the reduction stage
      run on the fold of the answers it captured, which are the eager
      answers. */
  lemma {:induction false} StreamAllSplits(steps: seq<nat>, aggregated: string)
    ensures StreamAllFrom(steps, aggregated) == ThinkingPhase(steps) + ReformatStream(aggregated + Aggregate(Answers(steps)))
    decreases |steps|
  {
    if steps == [] {
      assert aggregated + "" == aggregated;
    } else {
      var next := aggregated + QaAnswer(steps[0]) + " ";
      StreamAllStep(steps, aggregated);
      StreamAllSplits(steps[1..], next);
      AggregateStep(steps, aggregated);
      ConcatAssoc(QaStream(steps[0])[..4], ThinkingPhase(steps[1..]), ReformatStream(aggregated + Aggregate(Answers(steps))));
    }
  }

  /** `_stream_all()` over a planner step list. */
  function StreamAll(steps: seq<nat>): (r: seq<Event>)
    ensures r == ThinkingPhase(steps) + ReformatStream(Aggregate(Answers(steps)))
  {
    StreamAllSplits(steps, "");
    assert "" + Aggregate(Answers(steps)) == Aggregate(Answers(steps));
    StreamAllFrom(steps, "")
  }

  /** The eager planner loop from the point where `steps` remain and
      `aggregated` holds the fold so far: each step's eager answer and a
      space are appended. */
  function EagerAggregateFrom(steps: seq<nat>, aggregated: string): (r: string)
    ensures |aggregated| <= |r| && r[..|aggregated|] == aggregated
    ensures steps != [] ==> |r| > |aggregated| && r[|r| - 1] == ' '
    decreases |steps|
  {
    if steps == [] then aggregated
    else EagerAggregateFrom(steps[1..], aggregated + QaExecute(steps[0], false).event.data + " ")
  }

  /** The eager loop's accumulator ends as the reference fold of the eager
      answers. */
  lemma {:induction false} EagerAggregateIsAggregate(steps: seq<nat>, aggregated: string)
    ensures EagerAggregateFrom(steps, aggregated) == aggregated + Aggregate(Answers(steps))
    decreases |steps|
  {
    if steps == [] {
      assert aggregated + "" == aggregated;
    } else {
      QaModesAgree(steps[0]);
      assert QaExecute(steps[0], false).event.data == QaAnswer(steps[0]);
      EagerAggregateIsAggregate(steps[1..], aggregated + QaAnswer(steps[0]) + " ");
      AggregateStep(steps, aggregated);
    }
  }

  /** `multistep_processing(prompt, stream)`: the `_stream_all` generator
      when streaming; otherwise the eager reduction stage's event over the
      eagerly built fold. */
  function MultistepProcessing(prompt: string, stream: bool): (r: Source)
    ensures stream ==> r == Stream(ThinkingPhase(PlannerSteps) + ReformatStream(Aggregate(Answers(PlannerSteps))))
    ensures !stream ==> r == Single(Event(FinalReformat, None, "final_response..." + Strip(Aggregate(Answers(PlannerSteps)))))
  {
    if stream then Stream(StreamAll(PlannerSteps))
    else
      EagerAggregateIsAggregate(PlannerSteps, "");
      assert "" + Aggregate(Answers(PlannerSteps)) == Aggregate(Answers(PlannerSteps));
      ReformatModesAgree(Aggregate(Answers(PlannerSteps)));
      ReformatExecute(EagerAggregateFrom(PlannerSteps, ""), false)
  }

  /** `run_agent(prompt, stream)`: the streamed events with every
      `final_reformat` event rewritten to carry the marker, or the eager
      final event rewritten the same way. */
  function RunAgent(prompt: string, stream: bool): (r: Source)
    ensures stream ==> r == Stream(AttachRef(StreamAll(PlannerSteps)))
    ensures !stream ==> r == Single(Event(FinalReformat, None, "final_response..." + Strip(Aggregate(Answers(PlannerSteps))) + RefSuffix))
  {
    hide *;
    var response := MultistepProcessing(prompt, stream);
    if stream then Stream(AttachRef(response.events))
    else
      WithRefAppends(response.event);
      Single(WithRef(response.event))
  }

  /** Event `k < 4 * |steps|` of the stream is thinking event `k % 4` of
      step `k / 4`; the reduction stage's five events follow. */
  lemma StreamLayout(steps: seq<nat>)
    ensures |StreamAll(steps)| == 4 * |steps| + 5
    ensures forall k :: 0 <= k < 4 * |steps| ==> StreamAll(steps)[k] == QaStream(steps[k / 4])[k % 4]
    ensures StreamAll(steps)[4 * |steps|..] == ReformatStream(Aggregate(Answers(steps)))
  {
    hide *;
    var thinking, reformat := ThinkingPhase(steps), ReformatStream(Aggregate(Answers(steps)));
    assert (thinking + reformat)[|thinking|..] == reformat;
  }

  /** The stream never shows a per-step answer, and its one
      `final_reformat` event is its last. */
  lemma StreamEventKinds(steps: seq<nat>)
    ensures var r := StreamAll(steps);
            && |r| > 0 && Last(r).kind == FinalReformat
            && (forall k :: 0 <= k < |r| - 1 ==> r[k].kind != FinalReformat)
            && (forall k :: 0 <= k < |r| ==> r[k].kind != FinalQa)
  {
    hide *;
    var thinking, reformat := ThinkingPhase(steps), ReformatStream(Aggregate(Answers(steps)));
    var r := thinking + reformat;
    assert forall k :: 0 <= k < |thinking| ==> thinking[k].kind == QaThinking;
    OnlyLastOfKind(thinking, reformat, FinalReformat);
    assert Last(r) == reformat[4];
    forall k | 0 <= k < |r|
      ensures r[k].kind != FinalQa
    {
      if k >= |thinking| {
        assert r[k] == reformat[k - |thinking|];
      }
    }
  }

  /** Both modes of `multistep_processing` agree: the eager event is the
      one the stream ends with. */
  lemma MultistepModesAgree(prompt: string)
    ensures MultistepProcessing(prompt, true).Stream? && MultistepProcessing(prompt, false).Single?
    ensures MultistepProcessing(prompt, false).event == Last(MultistepProcessing(prompt, true).events)
  {
    hide *;
    var reformat := ReformatStream(Aggregate(Answers(PlannerSteps)));
    var r := ThinkingPhase(PlannerSteps) + reformat;
    assert Last(r) == reformat[4];
  }

  /** The stream ends with the reduction stage's answer over the
      stripped fold. */
  lemma StreamLastEvent(steps: seq<nat>)
    ensures |StreamAll(steps)| > 0
    ensures Last(StreamAll(steps)) == Event(FinalReformat, None, "final_response..." + Strip(Aggregate(Answers(steps))))
  {
    hide *;
    var reformat := ReformatStream(Aggregate(Answers(steps)));
    var r := ThinkingPhase(steps) + reformat;
    assert Last(r) == reformat[4];
  }

  /** Streaming and eager runs agree: the eager result is the very event the
      stream ends with, and every streamed event before it is the
      generator's, unchanged. */
  lemma RunAgentModesAgree(prompt: string)
    ensures RunAgent(prompt, true).Stream?
    ensures var out := RunAgent(prompt, true).events;
            && |out| == 17
            && RunAgent(prompt, false) == Single(Last(out))
            && (forall k :: 0 <= k < 16 ==> out[k] == StreamAll(PlannerSteps)[k])
  {
    PlannerShape();
    hide *;
    var all := StreamAll(PlannerSteps);
    assert |all| == 17;
    var out := RunAgent(prompt, true).events;
    StreamEventKinds(PlannerSteps);
    AttachRefAtEnd(all);
    assert out == AttachRef(all);
    StreamLastEvent(PlannerSteps);
    WithRefAppends(Last(all));
    assert Last(out) == WithRef(Last(all));
  }

  /** The two pipeline variants stream the same events, except that this
      one holds back every `final_qa` event the other forwards. */
  lemma VariantsAgree(steps: seq<nat>)
    ensures StreamAll(steps) == Filter(AllYield.MultistepCore(steps), NotFinalQa)
  {
    assert NotFinalQa(QaThinking) && !NotFinalQa(FinalQa);
    assert NotFinalQa(ReformatThinking) && NotFinalQa(FinalReformat);
    hide *;
    var input := Aggregate(Answers(steps));
    FilterConcat(AllYield.QaPhase(steps), ReformatStream(input), NotFinalQa);
    PhaseFilter(steps, NotFinalQa);
    ReformatPassesFilter(input, NotFinalQa);
  }

  /** The same holds of the streams `run_agent` hands out: this variant's
      is the other's with every `final_qa` event removed. */
  lemma RunAgentVariantsAgree(prompt: string)
    ensures AllYield.RunAgent(prompt, true).Ok? && AllYield.RunAgent(prompt, true).value.Stream?
    ensures RunAgent(prompt, true).Stream?
    ensures RunAgent(prompt, true).events == Filter(AllYield.RunAgent(prompt, true).value.events, NotFinalQa)
  {
    hide *;
    VariantsAgree(PlannerSteps);
    FilterAttachRef(AllYield.MultistepCore(PlannerSteps), NotFinalQa);
  }

  /** Both variants answer an eager run with the same event. */
  lemma EagerVariantsAgree(prompt: string)
    ensures AllYield.RunAgent(prompt, false) == Ok(RunAgent(prompt, false))
  {
  }

  /** Every payload of the stream has its colons after a `p`. */
  lemma StreamColons(steps: seq<nat>)
    ensures forall k :: 0 <= k < |StreamAll(steps)| ==> ColonsAfterP(StreamAll(steps)[k].data)
  {
    hide *;
    StreamLayout(steps);
    var r := StreamAll(steps);
    var n := 4 * |steps|;
    var input := Aggregate(Answers(steps));
    AggregateColons(steps);
    ReformatStreamColons(input);
    forall k | 0 <= k < |r|
      ensures ColonsAfterP(r[k].data)
    {
      if k < n {
        QaStreamColons(steps[k / 4]);
      } else {
        assert r[k] == r[n..][k - n];
      }
    }
  }

  /** The marker is appended exactly once: no streamed event but the last
      contains it, and the last event's data contains it only at its end. */
  lemma RunAgentMarkerOnce(prompt: string)
    ensures RunAgent(prompt, true).Stream?
    ensures MarkedOnceAtEnd(RunAgent(prompt, true).events)
  {
    hide *;
    var all := StreamAll(PlannerSteps);
    StreamEventKinds(PlannerSteps);
    StreamColons(PlannerSteps);
    AttachRefMarksOnce(all);
  }

  /** The stream lists the steps' thinking events in planner order: when
      the steps are sorted, the step numbers it carries never go down. */
  lemma StreamStepOrder(steps: seq<nat>)
    requires Sorted(steps)
    ensures StepsNondecreasing(StreamAll(steps))
  {
    hide *;
    StreamLayout(steps);
    var r := StreamAll(steps);
    var n := 4 * |steps|;
    forall k | 0 <= k < n
      ensures r[k].step == Some(steps[k / 4])
    {
      assert r[k] == QaStream(steps[k / 4])[k % 4];
    }
    forall k | n <= k < |r|
      ensures r[k].step == None
    {
      assert r[k] == r[n..][k - n];
    }
    BlockedStepsNondecreasing(r, steps, 4);
  }

  /** Whatever the prompt, the eager run answers with the concrete string
      the three planner steps produce, as the other variant does. */
  lemma FinalPayloadScenario(prompt: string)
    ensures RunAgent(prompt, false) ==
            Single(Event(FinalReformat, None,
              "final_response..." +
              ("final_response...step:1" + " " + "final_response...step:2" + " " + "final_response...step:3") +
              "ref:1"))
  {
    assert RefSuffix == "ref:1";
    hide *;
    PlannerFold();
  }
}
