/** The two stages both pipeline variants drive. Each can run streaming
    (an async generator: four "thinking" events, then its final event) or
    eager (the final event alone); both variants of the pipeline define
    them with the same text. */
module Stages {
  import opened Events
  import opened Text

  /** One event of `kind` per label, in label order: how a stage reports
      its progress labels one after another. */
  function Emit(kind: Kind, step: Option<nat>, labels: seq<string>): (r: seq<Event>)
    ensures |r| == |labels|
    ensures forall i :: 0 <= i < |labels| ==> r[i] == Event(kind, step, labels[i])
    decreases |labels|
  {
    if labels == [] then [] else [Event(kind, step, labels[0])] + Emit(kind, step, labels[1..])
  }

  /** A run of progress events followed by one final event. */
  lemma EmitThenLast(kind: Kind, step: Option<nat>, labels: seq<string>, last: Event)
    ensures var r := Emit(kind, step, labels) + [last];
            && |r| == |labels| + 1 && r[|labels|] == last
            && forall i :: 0 <= i < |labels| ==> r[i] == Event(kind, step, labels[i])
  {
  }

  /** The progress labels of the per-step stage. */
  function QaLabels(step: nat): (r: seq<string>)
    ensures |r| == 4
  {
    [ "thinking 1...step:" + Digits(step),
      "thinking 2...step:" + Digits(step),
      "thinking 3...step:" + Digits(step),
      "thinking 4...step:" + Digits(step) ]
  }

  /** Label `i` announces thinking round `i + 1` and names the step in
      decimal after `step:`, so the step can be read back from it. */
  lemma QaLabelsNameStep(step: nat)
    ensures forall i :: 0 <= i < 4 ==>
              && |QaLabels(step)[i]| > 18
              && QaLabels(step)[i][9] == DigitChar(i + 1)
              && QaLabels(step)[i][13..18] == "step:"
              && AllDigits(QaLabels(step)[i][18..])
              && ParseDigits(QaLabels(step)[i][18..]) == step
  {
    ParseDigitsOfDigits(step);
  }

  /** The per-step stage's final answer; it has no surrounding whitespace. */
  function QaAnswer(step: nat): (r: string)
    ensures Trimmed(r)
  {
    DigitsTrimmed(step);
    "final_response...step:" + Digits(step)
  }

  /** What streaming `qa_execute` yields for a step: its four thinking
      events, then its final answer, all tagged with the step. */
  function QaStream(step: nat): (r: seq<Event>)
    ensures |r| == 5
    ensures forall i :: 0 <= i < 5 ==> r[i].step == Some(step)
    ensures forall i :: 0 <= i < 4 ==> r[i].kind == QaThinking && r[i].data == QaLabels(step)[i]
    ensures r[4] == Event(FinalQa, Some(step), QaAnswer(step))
  {
    Emit(QaThinking, Some(step), QaLabels(step)) + [Event(FinalQa, Some(step), QaAnswer(step))]
  }

  /** `qa_execute(step, prompt, stream)`; the prompt is never read. */
  function QaExecute(step: nat, stream: bool): (r: Source)
    ensures r.Stream? <==> stream
    ensures stream ==> r.events == QaStream(step)
    ensures !stream ==> r == Single(Event(FinalQa, Some(step), QaAnswer(step)))
  {
    if stream then Stream(QaStream(step))
    else Single(Event(FinalQa, Some(step), QaAnswer(step)))
  }

  /** The final answer names its step in decimal after
      `final_response...step:`, so the step can be read back from it. */
  lemma QaAnswerNamesStep(step: nat)
    ensures |QaAnswer(step)| > 22 && QaAnswer(step)[..22] == "final_response...step:"
    ensures AllDigits(QaAnswer(step)[22..]) && ParseDigits(QaAnswer(step)[22..]) == step
  {
    ParseDigitsOfDigits(step);
  }

  /** The progress labels of the reduction stage. */
  const ReformatLabels: seq<string> := ["reformat 1...", "reformat 2...", "reformat 3...", "reformat 4..."]

  /** The reduction stage's final answer for its aggregated input. */
  function ReformatAnswer(input: string): string {
    "final_response..." + Strip(input)
  }

  /** The answer is a fixed prefix, then the input without its
      surrounding whitespace. */
  lemma ReformatAnswerShape(input: string)
    ensures |ReformatAnswer(input)| >= 17 && ReformatAnswer(input)[..17] == "final_response..."
    ensures var text := ReformatAnswer(input)[17..]; |text| <= |input| && (text == [] || Trimmed(text))
  {
  }

  /** The answer depends on the input only through its stripped form:
      stripping the input beforehand changes nothing. */
  lemma ReformatAnswerOfStripped(input: string)
    ensures ReformatAnswer(Strip(input)) == ReformatAnswer(input)
  {
    StripIdempotent(input);
  }

  /** What streaming `reformat_execute` yields: four untagged thinking
      events, then the final answer built from the stripped input. */
  function ReformatStream(input: string): (r: seq<Event>)
    ensures |r| == 5
    ensures forall i :: 0 <= i < 5 ==> r[i].step == None
    ensures forall i :: 0 <= i < 4 ==> r[i].kind == ReformatThinking && r[i].data == ReformatLabels[i]
    ensures r[4] == Event(FinalReformat, None, "final_response..." + Strip(input))
  {
    var last := Event(FinalReformat, None, ReformatAnswer(input));
    assert |ReformatLabels| == 4;
    EmitThenLast(ReformatThinking, None, ReformatLabels, last);
    hide Emit;
    Emit(ReformatThinking, None, ReformatLabels) + [last]
  }

  /** The reduction stage streams no per-step answer and ends with its
      own final answer. */
  lemma ReformatStreamKinds(input: string)
    ensures forall k :: 0 <= k < |ReformatStream(input)| ==> ReformatStream(input)[k].kind != FinalQa
    ensures Last(ReformatStream(input)).kind == FinalReformat
  {
    hide ReformatStream;
    var r := ReformatStream(input);
    forall k | 0 <= k < |r|
      ensures r[k].kind != FinalQa
    {
      if k < 4 {
        assert r[k].kind == ReformatThinking;
      }
    }
  }

  /** `reformat_execute(input, stream)`. */
  function ReformatExecute(input: string, stream: bool): (r: Source)
    ensures r.Stream? <==> stream
    ensures stream ==> r.events == ReformatStream(input)
    ensures !stream ==> r == Single(Event(FinalReformat, None, "final_response..." + Strip(input)))
  {
    if stream then Stream(ReformatStream(input))
    else Single(Event(FinalReformat, None, ReformatAnswer(input)))
  }

  /** The eager per-step stage returns exactly the event its streaming
      run ends with. */
  lemma QaModesAgree(step: nat)
    ensures QaExecute(step, false) == Single(Last(QaExecute(step, true).events))
  {
  }

  /** The eager reduction stage returns exactly the event its streaming
      run ends with. */
  lemma ReformatModesAgree(input: string)
    ensures ReformatExecute(input, false) == Single(Last(ReformatExecute(input, true).events))
  {
  }

  /** `qa_final_response` after draining a step's stream: the data of the
      last `final_qa` event, or `""` when there is none. */
  function CapturedAnswer(events: seq<Event>): (r: string)
    ensures (forall i :: 0 <= i < |events| ==> events[i].kind != FinalQa) ==> r == ""
    ensures forall i :: 0 <= i < |events| && events[i].kind == FinalQa &&
                        (forall j :: i < j < |events| ==> events[j].kind != FinalQa) ==>
                          r == events[i].data
  {
    match ScanLast(events, FinalQa, None)
    case Some(e) => e.data
    case None => ""
  }

  /** Draining a step's stream captures the same answer the eager stage
      returns. */
  lemma CapturedAnswerIsEagerAnswer(step: nat)
    ensures CapturedAnswer(QaExecute(step, true).events) == QaExecute(step, false).event.data
  {
  }
}
