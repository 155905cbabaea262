/** The pipeline variant that writes its logic once, as a single core
    generator: streaming hands that generator out, eager drains it and keeps
    the last `final_reformat` event. The core forwards every stage event. */
module MockStreamingAllYield {
  import opened Events
  import opened Text
  import opened Stages
  import opened Pipeline

  /** Every event the per-step stages stream for `steps`, step after step. */
  function QaPhase(steps: seq<nat>): (r: seq<Event>)
    ensures |r| == 5 * |steps|
    ensures forall k :: 0 <= k < |r| ==> r[k] == QaStream(steps[k / 5])[k % 5]
    ensures forall k :: 0 <= k < |r| ==> r[k].step == Some(steps[k / 5]) && (r[k].kind == QaThinking || r[k].kind == FinalQa)
    decreases |steps|
  {
    if steps == [] then []
    else
      var tail := QaPhase(steps[1..]);
      QaBlocks(steps, tail);
      QaStream(steps[0]) + tail
  }

  lemma QaBlocks(steps: seq<nat>, tail: seq<Event>)
    requires steps != [] && |tail| == 5 * (|steps| - 1)
    requires forall k :: 0 <= k < |tail| ==> tail[k] == QaStream(steps[1..][k / 5])[k % 5]
    ensures var r := QaStream(steps[0]) + tail;
            forall k :: 0 <= k < |r| ==> r[k] == QaStream(steps[k / 5])[k % 5]
  {
    hide *;
    var head, rest := QaStream(steps[0]), steps[1..];
    var r := head + tail;
    forall k | 0 <= k < |r|
      ensures r[k] == QaStream(steps[k / 5])[k % 5]
    {
      if k < 5 {
        assert r[k] == head[k];
      } else {
        assert r[k] == tail[k - 5];
        assert (k - 5) / 5 == k / 5 - 1 && (k - 5) % 5 == k % 5;
        assert rest[k / 5 - 1] == steps[k / 5];
      }
    }
  }

  /** The `_multistep_core` generator from the point where `steps` remain in
      the planner loop and `aggregated` holds the fold so far: each step's
      stream is forwarded whole while its `final_qa` data is captured, and
      once the steps are done the reduction stage's stream follows. */
  function CoreFrom(steps: seq<nat>, aggregated: string): (r: seq<Event>)
    ensures |r| == 5 * |steps| + 5
    ensures steps != [] ==> r[..5] == QaStream(steps[0])
    ensures r[|r| - 1].kind == FinalReformat
    decreases |steps|
  {
    if steps == [] then ReformatExecute(aggregated, true).events
    else
      var events := QaExecute(steps[0], true).events;
      var rest := CoreFrom(steps[1..], aggregated + CapturedAnswer(events) + " ");
      PrependBlock(events, rest);
      events + rest
  }

  /** One turn of the planner loop: the step's stream goes out and its
      eager answer, plus a space, is added to the fold. */
  lemma CoreFromStep(steps: seq<nat>, aggregated: string)
    requires steps != []
    ensures CoreFrom(steps, aggregated) == QaStream(steps[0]) + CoreFrom(steps[1..], aggregated + QaAnswer(steps[0]) + " ")
  {
    CapturedAnswerIsEagerAnswer(steps[0]);
  }

  /** The generator is the per-step phase followed by the reduction stage
      run on the fold of the eager answers: the answer it captures from
      each stream is the eager answer. */
  lemma {:induction false} CoreFromSplits(steps: seq<nat>, aggregated: string)
    ensures CoreFrom(steps, aggregated) == QaPhase(steps) + ReformatStream(aggregated + Aggregate(Answers(steps)))
    decreases |steps|
  {
    if steps == [] {
      assert aggregated + "" == aggregated;
    } else {
      var next := aggregated + QaAnswer(steps[0]) + " ";
      CoreFromStep(steps, aggregated);
      CoreFromSplits(steps[1..], next);
      AggregateStep(steps, aggregated);
      ConcatAssoc(QaStream(steps[0]), QaPhase(steps[1..]), ReformatStream(aggregated + Aggregate(Answers(steps))));
    }
  }

  /** `_multistep_core` over a planner step list: every event of every
      step's stream, forwarded unchanged and in step order, then the
      reduction stage's stream over the fold of the eager answers. */
  function MultistepCore(steps: seq<nat>): (r: seq<Event>)
    ensures r == QaPhase(steps) + ReformatStream(Aggregate(Answers(steps)))
  {
    CoreFromSplits(steps, "");
    assert "" + Aggregate(Answers(steps)) == Aggregate(Answers(steps));
    CoreFrom(steps, "")
  }

  /** Event `k < 5 * |steps|` of the core is event `k % 5` of step
      `k / 5`'s stream; the reduction stage's five events follow. */
  lemma CoreLayout(steps: seq<nat>)
    ensures |MultistepCore(steps)| == 5 * |steps| + 5
    ensures forall k :: 0 <= k < 5 * |steps| ==> MultistepCore(steps)[k] == QaStream(steps[k / 5])[k % 5]
    ensures MultistepCore(steps)[5 * |steps|..] == ReformatStream(Aggregate(Answers(steps)))
  {
    hide *;
    var qa, reformat := QaPhase(steps), ReformatStream(Aggregate(Answers(steps)));
    assert (qa + reformat)[|qa|..] == reformat;
  }

  /** The core's one `final_reformat` event is its last. */
  lemma CoreEndsWithFinal(steps: seq<nat>)
    ensures var r := MultistepCore(steps);
            && |r| > 0 && Last(r).kind == FinalReformat
            && (forall k :: 0 <= k < |r| - 1 ==> r[k].kind != FinalReformat)
  {
    hide *;
    var qa, reformat := QaPhase(steps), ReformatStream(Aggregate(Answers(steps)));
    OnlyLastOfKind(qa, reformat, FinalReformat);
    assert Last(qa + reformat) == reformat[4];
  }

  /** The core ends with the reduction stage's answer over the stripped
      fold. */
  lemma CoreLastEvent(steps: seq<nat>)
    ensures |MultistepCore(steps)| > 0
    ensures Last(MultistepCore(steps)) == Event(FinalReformat, None, "final_response..." + Strip(Aggregate(Answers(steps))))
  {
    hide *;
    var reformat := ReformatStream(Aggregate(Answers(steps)));
    var r := QaPhase(steps) + reformat;
    assert Last(r) == reformat[4];
  }

  /** `multistep_processing(prompt, stream)`: the core generator itself when
      streaming; otherwise the last `final_reformat` event found by draining
      the same generator: the reduction stage's answer. */
  function MultistepProcessing(prompt: string, stream: bool): (r: Source)
    ensures stream ==> r == Stream(MultistepCore(PlannerSteps))
    ensures !stream ==> r == Single(Event(FinalReformat, None, "final_response..." + Strip(Aggregate(Answers(PlannerSteps)))))
  {
    hide *;
    var core := MultistepCore(PlannerSteps);
    if stream then Stream(core)
    else
      CoreEndsWithFinal(PlannerSteps);
      CoreLastEvent(PlannerSteps);
      ScanLastEndsWith(core, FinalReformat, None);
      match ScanLast(core, FinalReformat, None)
      case Some(e) => Single(e)
      case None => Nothing
  }

  /** `run_agent(prompt, stream)`: the streamed core with every
      `final_reformat` event rewritten to carry the marker, or the drained
      final event rewritten the same way. (Reading the data of Python's
      `None` would raise; the drain never comes back empty.) */
  function RunAgent(prompt: string, stream: bool): (r: Result<Source>)
    ensures stream ==> r == Ok(Stream(AttachRef(MultistepCore(PlannerSteps))))
    ensures !stream ==> r == Ok(Single(Event(FinalReformat, None, "final_response..." + Strip(Aggregate(Answers(PlannerSteps))) + RefSuffix)))
  {
    hide *;
    var response := MultistepProcessing(prompt, stream);
    if stream then Ok(Stream(AttachRef(response.events)))
    else
      match response
      case Single(e) =>
        WithRefAppends(e);
        Ok(Single(WithRef(e)))
      case _ => Failure("TypeError: 'NoneType' object is not subscriptable")
  }

  /** Both modes of `multistep_processing` agree: draining the generator
      gives the event it ends with. */
  lemma MultistepModesAgree(prompt: string)
    ensures MultistepProcessing(prompt, true).Stream? && MultistepProcessing(prompt, false).Single?
    ensures MultistepProcessing(prompt, false).event == Last(MultistepProcessing(prompt, true).events)
  {
    hide *;
    CoreLastEvent(PlannerSteps);
  }

  /** Streaming and eager runs agree: the eager result is the very event the
      stream ends with, and every streamed event before it is the core's,
      unchanged. */
  lemma RunAgentModesAgree(prompt: string)
    ensures RunAgent(prompt, true).Ok? && RunAgent(prompt, true).value.Stream?
    ensures var out := RunAgent(prompt, true).value.events;
            && |out| == 20
            && RunAgent(prompt, false) == Ok(Single(Last(out)))
            && (forall k :: 0 <= k < 19 ==> out[k] == MultistepCore(PlannerSteps)[k])
  {
    PlannerShape();
    hide *;
    var core := MultistepCore(PlannerSteps);
    CoreEndsWithFinal(PlannerSteps);
    AttachRefAtEnd(core);
    CoreLastEvent(PlannerSteps);
    WithRefAppends(Last(core));
  }

  /** Every payload of the core generator has its colons after a `p`. */
  lemma CoreColons(steps: seq<nat>)
    ensures forall k :: 0 <= k < |MultistepCore(steps)| ==> ColonsAfterP(MultistepCore(steps)[k].data)
  {
    hide *;
    CoreLayout(steps);
    var r := MultistepCore(steps);
    var n := 5 * |steps|;
    var input := Aggregate(Answers(steps));
    AggregateColons(steps);
    ReformatStreamColons(input);
    forall k | 0 <= k < |r|
      ensures ColonsAfterP(r[k].data)
    {
      if k < n {
        QaStreamColons(steps[k / 5]);
      } else {
        assert r[k] == r[n..][k - n];
      }
    }
  }

  /** The marker is appended exactly once: no streamed event but the last
      contains it, and the last event's data contains it only at its end. */
  lemma RunAgentMarkerOnce(prompt: string)
    ensures RunAgent(prompt, true).Ok? && RunAgent(prompt, true).value.Stream?
    ensures MarkedOnceAtEnd(RunAgent(prompt, true).value.events)
  {
    hide *;
    var core := MultistepCore(PlannerSteps);
    CoreEndsWithFinal(PlannerSteps);
    CoreColons(PlannerSteps);
    AttachRefMarksOnce(core);
  }

  /** Whatever the prompt, the eager run answers with the concrete string
      the three planner steps produce. */
  lemma FinalPayloadScenario(prompt: string)
    ensures RunAgent(prompt, false) ==
            Ok(Single(Event(FinalReformat, None,
              "final_response..." +
              ("final_response...step:1" + " " + "final_response...step:2" + " " + "final_response...step:3") +
              "ref:1")))
  {
    assert RefSuffix == "ref:1";
    hide *;
    PlannerFold();
  }

  /** The core lists the steps' events in planner order: when the steps are
      sorted, the step numbers it carries never go down. */
  lemma CoreStepOrder(steps: seq<nat>)
    requires Sorted(steps)
    ensures StepsNondecreasing(MultistepCore(steps))
  {
    var r := MultistepCore(steps);
    var n := 5 * |steps|;
    forall k | n <= k < |r|
      ensures r[k].step == None
    {
      assert r[k] == r[n..][k - n];
    }
    BlockedStepsNondecreasing(r, steps, 5);
  }
}
