# Dual-mode mock streaming pipeline

This project models a small agent pipeline that runs in two modes.

- **Streaming.** Each stage returns an async generator of event dictionaries.
- **Eager.** Each stage returns only its final event dictionary.

The pipeline has two stages, and the same code appears in two variants.

- **Stages.**
  - `qa_execute` is the per-step stage. It emits four `qa_thinking` events tagged with the step number, then a `final_qa` event whose data is `final_response...step:N`.
  - `reformat_execute` is the reduction stage. It emits four `reformat_thinking` events, then `final_reformat`, whose data is `final_response...` followed by its input with the surrounding whitespace stripped.
- **Pipeline.** The planner drives three steps, numbered 1, 2 and 3, in order.
  - Each step's final answer is added to an accumulator, followed by one space.
  - The accumulator is the input of the reduction stage.
  - `run_agent` appends the marker `ref:1` to the `final_reformat` data.
- **`mock_streaming_all_yield.py`** writes the logic once, as the `_multistep_core` generator.
  - That generator forwards every stage event.
  - Streaming hands the generator out.
  - Eager drains it and keeps the last `final_reformat` event.
- **`mock_streaming.py`** spells out both modes by hand.
  - Its streaming generator `_stream_all` forwards only the per-step `qa_thinking` events, then the reduction stage's events.
  - Its eager branch calls every stage eagerly.

How the model is built:

- A generator is the finite sequence of events it yields (`Events.Source.Stream`).
- An eager return is one event (`Single`).
- Python's `None` is `Nothing`.
- `str.strip()` trims Python's full `str.isspace` character set (`Text.IsSpace`).
- An integer in an f-string is rendered by `Text.Digits`.

The modules are:

- `Events` — the event record and the scans and filters both variants use.
- `Text` — strip and digit rendering.
- `Stages` — the two stages. They are modelled once because their text is identical in both files.
- `Pipeline` — the planner steps, the fold, and the marker post-processing.
- `MockStreamingAllYield` — one variant.
- `MockStreaming` — the other variant.

The central results are:

- Per variant, streaming and eager runs of `run_agent` end with the same event.
- Both variants produce the same eager answer.
- The streams of the two variants differ only by the `final_qa` events that `mock_streaming.py` holds back. This holds for the `multistep_processing` streams and for the streams `run_agent` hands out.
- For every prompt the answer is the concrete string `final_response...final_response...step:1 final_response...step:2 final_response...step:3ref:1`.

## Model

| member | source | states |
|---|---|---|
| Stages.Emit | mock_streaming_all_yield.py:18-20 | one event of the given kind and step per label, in label order, and nothing else |
| Stages.QaLabelsNameStep | mock_streaming_all_yield.py:6-11 | label `i` announces thinking round `i + 1` and names the step in decimal after `step:`; reading the digits back gives the step |
| Stages.QaAnswer | mock_streaming_all_yield.py:12 | the per-step answer has no surrounding whitespace |
| Stages.QaAnswerNamesStep | mock_streaming_all_yield.py:12 | the answer is `final_response...step:` followed by decimal digits that read back as the step |
| Stages.QaStream | mock_streaming_all_yield.py:6-22 | exactly five events, all tagged with the step; four `qa_thinking` events carrying the four labels in order, then `final_qa` with `final_response...step:N` |
| Stages.QaExecute | mock_streaming_all_yield.py:5-29 | a generator exactly when streaming is asked for, yielding the step's five-event stream; otherwise the single `final_qa` event for the step, with `final_response...step:N` as its data |
| Stages.QaModesAgree | mock_streaming_all_yield.py:12-29 | the eager per-step stage returns exactly the last event of its streaming run |
| Stages.ReformatAnswerShape | mock_streaming_all_yield.py:39 | the reduction answer is the fixed prefix `final_response...` followed by text no longer than the input, with no surrounding whitespace |
| Stages.ReformatAnswerOfStripped | mock_streaming_all_yield.py:39 | stripping the input beforehand does not change the answer |
| Stages.ReformatStream | mock_streaming_all_yield.py:33-50 | five untagged events: four `reformat_thinking` events with the fixed labels, then `final_reformat` whose data is `final_response...` plus the stripped input |
| Stages.ReformatExecute | mock_streaming_all_yield.py:32-54 | a generator exactly when streaming is asked for, yielding the five-event reduction stream; otherwise the single `final_reformat` event whose data is `final_response...` plus the stripped input |
| Stages.ReformatStreamKinds | mock_streaming_all_yield.py:41-50 | the reduction stream contains no `final_qa` event and ends with `final_reformat` |
| Stages.ReformatModesAgree | mock_streaming_all_yield.py:39-54 | the eager reduction stage returns exactly the last event of its streaming run, so both modes carry the same payload |
| Stages.CapturedAnswer | mock_streaming_all_yield.py:69-72 | the captured answer is `""` when the stream has no `final_qa` event, and otherwise the data of the last `final_qa` event, wherever it occurs |
| Stages.CapturedAnswerIsEagerAnswer | mock_streaming_all_yield.py:68-74 | the answer captured from a step's stream equals the data of the eager stage's event |
| Events.ScanLast | mock_streaming_all_yield.py:88-92 | draining leaves the initial value when no event has the kind, and otherwise the last event of that kind |
| Events.Filter | mock_streaming.py:72-76 | an event is forwarded exactly when it occurs in the input and its kind passes the test; every forwarded event's kind passes; the output is never longer than the input |
| Events.FilterConcat | mock_streaming.py:68-76 | filtering consecutive streams equals concatenating their filtered parts |
| Text.AsciiSpace | mock_streaming_all_yield.py:39 | an ASCII character is whitespace exactly when it is the space, one of tab, newline, vertical tab, form feed and carriage return, or one of the four information separators 0x1C-0x1F; so no visible character is |
| Text.TrimLeft | mock_streaming_all_yield.py:39 | the result is a suffix of the input, everything dropped is whitespace, and the result does not start with whitespace |
| Text.TrimRight | mock_streaming_all_yield.py:39 | the result is a prefix of the input, everything dropped is whitespace, and the result does not end with whitespace |
| Text.Strip | mock_streaming_all_yield.py:39 | the stripped string is no longer than the input and is either empty or starts and ends with non-whitespace |
| Text.StripKeepsCore | mock_streaming_all_yield.py:39 | strip keeps exactly the span between the leading and the trailing whitespace |
| Text.StripDropsTrailingSpace | mock_streaming_all_yield.py:39 | a string with no surrounding whitespace followed by one space strips back to itself |
| Text.StripIdempotent | mock_streaming_all_yield.py:39 | stripping twice is the same as stripping once |
| Text.Digits | mock_streaming_all_yield.py:7-12 | a step number renders as a non-empty run of decimal digits without a leading zero |
| Text.ParseDigitsOfDigits | mock_streaming_all_yield.py:7-12 | reading the rendered number back gives the number, so distinct steps get distinct labels |
| Pipeline.Answers | mock_streaming_all_yield.py:66-74 | one answer per step, in step order, each the step's eager answer |
| Pipeline.Aggregate | mock_streaming_all_yield.py:65-74 | the accumulator is empty exactly when there are no steps, and otherwise ends with a space |
| Pipeline.AggregateStep | mock_streaming_all_yield.py:74 | one loop turn appends the step's answer and a space, and the rest of the fold follows |
| Pipeline.AggregateIsJoinPlusSpace | mock_streaming_all_yield.py:65-74 | the accumulator is the answers joined by single spaces, plus one trailing space |
| Pipeline.StripAggregate | mock_streaming_all_yield.py:39 | when no answer has surrounding whitespace, stripping the accumulator removes exactly the trailing space |
| Pipeline.StrippedFold | mock_streaming_all_yield.py:74-76 | the reduction stage's stripped input (the accumulator after `strip` removes its trailing space) is the step answers joined by single spaces |
| Pipeline.PlannerFold | mock_streaming_all_yield.py:59-76 | for the three planner steps, the stripped accumulator is the three answers separated by single spaces |
| Pipeline.WithRef | mock_streaming_all_yield.py:102-104 | the rewritten event is an untagged `final_reformat` whose data is the old data followed by `ref:1` |
| Pipeline.AttachRef | mock_streaming_all_yield.py:99-106 | the wrapper keeps the length, rewrites every `final_reformat` event, and passes every other event through unchanged, in place |
| Pipeline.FilterAttachRef | mock_streaming_all_yield.py:99-106 | the marker rewrite keeps every kind, so filtering the rewritten stream equals rewriting the filtered stream |
| Pipeline.AttachRefAtEnd | mock_streaming_all_yield.py:99-106 | on a stream whose only `final_reformat` is its last event, every earlier event is unchanged and the last one is rewritten |
| Pipeline.NoMarker | mock_streaming_all_yield.py:7-12 | a payload whose every colon follows a `p` (the labels and answers) never contains `ref:1` |
| Pipeline.MarkerOnceAtEnd | mock_streaming_all_yield.py:103 | after the marker is appended to such a payload, it occurs exactly once, at the end |
| Pipeline.AttachRefMarksOnce | mock_streaming_all_yield.py:99-106 | on such a stream the wrapper puts the marker in no event but the last, and in the last event only at its end |
| Pipeline.BlockedStepsNondecreasing | mock_streaming_all_yield.py:66-73 | equal-size per-step blocks in sorted step order, followed by untagged events, carry nondecreasing step numbers |
| MockStreamingAllYield.QaPhase | mock_streaming_all_yield.py:66-73 | the per-step part of the core has five events per step; event `k` is event `k % 5` of step `k / 5`'s stream |
| MockStreamingAllYield.CoreFrom | mock_streaming_all_yield.py:65-78 | from any point of the planner loop, the generator yields five events per remaining step plus five, begins with the next step's stream unchanged, and ends with `final_reformat` |
| MockStreamingAllYield.CoreFromSplits | mock_streaming_all_yield.py:65-78 | from any point of the planner loop, the generator is the remaining steps' streams followed by the reduction stream over the accumulator completed with the eager answers |
| MockStreamingAllYield.MultistepCore | mock_streaming_all_yield.py:57-78 | the core forwards every step's events unchanged and in step order, then the reduction stage's stream over the fold of the eager answers |
| MockStreamingAllYield.CoreLayout | mock_streaming_all_yield.py:66-78 | the core has `5n + 5` events, with a position-by-position description of the per-step part, and the reduction stream as the suffix |
| MockStreamingAllYield.CoreEndsWithFinal | mock_streaming_all_yield.py:76-78 | the last event of the core is `final_reformat` and no earlier event is |
| MockStreamingAllYield.CoreLastEvent | mock_streaming_all_yield.py:76-78 | the core ends with `final_reformat` carrying `final_response...` plus the stripped fold |
| MockStreamingAllYield.MultistepProcessing | mock_streaming_all_yield.py:81-92 | streaming hands out the core itself; eager returns the reduction stage's answer over the stripped fold, never `None` |
| MockStreamingAllYield.RunAgent | mock_streaming_all_yield.py:95-113 | streaming wraps the core with the marker rewrite; eager succeeds with the stripped-fold answer followed by `ref:1` |
| MockStreamingAllYield.MultistepModesAgree | mock_streaming_all_yield.py:81-92 | the drained eager result is the last event of the streamed core |
| MockStreamingAllYield.RunAgentModesAgree | mock_streaming_all_yield.py:95-113 | the streamed run has 20 events; the eager result is its last event; every earlier event is the core's event, unchanged |
| MockStreamingAllYield.CoreColons | mock_streaming_all_yield.py:6-48 | every payload of the core has each colon right after a `p` |
| MockStreamingAllYield.RunAgentMarkerOnce | mock_streaming_all_yield.py:99-108 | in the streamed run the marker appears exactly once, at the end of the last event |
| MockStreamingAllYield.FinalPayloadScenario | mock_streaming_all_yield.py:95-113 | for every prompt, the eager answer is `final_response...final_response...step:1 final_response...step:2 final_response...step:3ref:1` |
| MockStreamingAllYield.CoreStepOrder | mock_streaming_all_yield.py:66-73 | for sorted steps, the step numbers in the core never decrease |
| MockStreaming.ForwardThinking | mock_streaming.py:72-76 | an event of a step's stream goes out exactly when it is a `qa_thinking` event, and every event that goes out is one |
| MockStreaming.ThinkingPhase | mock_streaming.py:68-76 | the per-step part has four events per step; event `k` is thinking event `k % 4` of step `k / 4` |
| MockStreaming.StreamFilter | mock_streaming.py:72-76 | forwarding filters out the final answer of a step's stream and keeps the four thinking events |
| MockStreaming.PhaseFilter | mock_streaming.py:68-76 | filtering the streams of all steps gives the thinking phase |
| MockStreaming.StreamAllFrom | mock_streaming.py:66-81 | from any point of the planner loop, the generator never yields a `final_qa` event and ends with `final_reformat` |
| MockStreaming.StreamAllSplits | mock_streaming.py:67-81 | from any point of the planner loop, the generator is the remaining thinking events followed by the reduction stream over the accumulator completed with the eager answers |
| MockStreaming.StreamAll | mock_streaming.py:66-81 | `_stream_all` is the thinking phase followed by the reduction stage's stream over the fold of the captured answers |
| MockStreaming.EagerAggregateFrom | mock_streaming.py:87-92 | the eager loop only appends to its accumulator, and when a step remains the accumulator ends with a space |
| MockStreaming.EagerAggregateIsAggregate | mock_streaming.py:87-92 | the eager loop's accumulator equals the fold the streaming loop builds |
| MockStreaming.MultistepProcessing | mock_streaming.py:56-95 | streaming returns the thinking events then the reduction stream; eager returns the reduction stage's answer over the stripped fold |
| MockStreaming.RunAgent | mock_streaming.py:98-116 | streaming wraps the generator with the marker rewrite; eager returns the stripped-fold answer followed by `ref:1` |
| MockStreaming.StreamLayout | mock_streaming.py:68-81 | the stream has `4n + 5` events, with a position-by-position description, and the reduction stream as the suffix |
| MockStreaming.StreamEventKinds | mock_streaming.py:72-81 | no `final_qa` event is streamed, and the only `final_reformat` event is the last one |
| MockStreaming.StreamLastEvent | mock_streaming.py:79-81 | the stream ends with `final_reformat` carrying `final_response...` plus the stripped fold |
| MockStreaming.MultistepModesAgree | mock_streaming.py:63-95 | the eager result equals the last streamed event |
| MockStreaming.RunAgentModesAgree | mock_streaming.py:98-116 | the streamed run has 17 events; the eager result is its last event; every earlier event is the generator's event, unchanged |
| MockStreaming.VariantsAgree | mock_streaming.py:66-81 | this variant's stream is the other variant's core stream with every `final_qa` event removed |
| MockStreaming.RunAgentVariantsAgree | mock_streaming.py:98-111 | the stream `run_agent` hands out here is the other variant's `run_agent` stream with every `final_qa` event removed |
| MockStreaming.EagerVariantsAgree | mock_streaming.py:86-95 | both variants give the same eager `run_agent` answer |
| MockStreaming.StreamColons | mock_streaming.py:66-81 | every streamed payload has each colon right after a `p` |
| MockStreaming.RunAgentMarkerOnce | mock_streaming.py:102-111 | in the streamed run the marker appears exactly once, at the end of the last event |
| MockStreaming.StreamStepOrder | mock_streaming.py:68-76 | for sorted steps, the step numbers in the stream never decrease, so step i's events come before step i+1's |
| MockStreaming.FinalPayloadScenario | mock_streaming.py:98-116 | for every prompt, the eager answer is `final_response...final_response...step:1 final_response...step:2 final_response...step:3ref:1` |

## Left out

- `asyncio.sleep` and the async/await machinery: a generator is modelled as the complete sequence it yields. Laziness, suspension and a consumer that stops early are not modelled.
- The `print` calls, `run_server` and the `__main__` entry point: they are console output and program entry only.
- Cancellation, concurrency between runs and error handling: neither file has any.
- The prompt, and the planner steps' `action` and `input` fields: the code never reads them. The prompt is kept as an ignored parameter. A planner step is modelled by its step number, a natural number, because the planner's steps are 1, 2 and 3.
- The event dictionaries are records with a kind, an optional step and a data string. The reduction stage's events and the rewritten events have no `step` key, which is modelled as `None`.
- Eager `run_agent` in `mock_streaming_all_yield.py` subscripts the drained result. On Python's `None` this would raise `TypeError`. This is modelled as `Failure`, and it is proved unreachable because the drain always finds the core's `final_reformat` event.
- Forwarding policy: the model follows each file as written. `mock_streaming_all_yield.py` forwards every stage event. `mock_streaming.py` forwards only `qa_thinking` events from the per-step stages, so it also drops any per-step event that is neither `qa_thinking` nor `final_qa`. `MockStreaming.VariantsAgree` relates the two policies.
- The streaming `run_agent` rewrites every `final_reformat` event, not only the last. The model rewrites every one, as the code does, and proves that the only such event is the last.
- MockStreaming.ForwardThinking: its own contract states membership only. The order of the forwarded events is stated by `MockStreaming.StreamFilter` and `MockStreaming.PhaseFilter`.
- Text.Strip: `str.strip` is modelled on code points with Python's `isspace` set. There is no other Unicode processing.
- Text.Digits: renders non-negative step numbers only, because the planner's steps are positive. The `-` sign of a negative `int` is not modelled.
