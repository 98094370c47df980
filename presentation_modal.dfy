/** The "create presentation" dialog (src/app/components/PresentationModal.tsx):
    the step it shows, the text it collects and the outcome of the request
    that generates the presentation.  The request, the canvas captures and
    the timer are not modelled: what they deliver is an input. */
module PresentationModal {
  import opened Common

  /** `step`: which screen of the dialog is shown. */
  datatype Step = InputStep | LoadingStep | ResultStep | ErrorStep

  /** The six pieces of React state of the component. */
  datatype ModalState = ModalState(
    step: Step, description: string, generatedText: string,
    screenshots: seq<string>, error: string, isGenerating: bool)

  /** The state the component mounts with, and the one `handleReset` restores. */
  const Initial := ModalState(InputStep, "", "", [], "", false)

  /** The state the dialog keeps: the loading screen is shown exactly while
      a generation runs. */
  predicate Valid(s: ModalState) {
    s.isGenerating <==> s.step == LoadingStep
  }

  /** The body of the reply to `POST /relator/presentation`; a missing
      field reads as "". */
  datatype PresentationResponse = PresentationResponse(text: string, status: string, error: string)

  /** How the request ended: it threw (network failure, invalid JSON) with
      an `Error` message, or a response came with its status. */
  datatype Outcome =
    | Thrown(message: string)
    | Responded(ok: bool, status: nat, result: PresentationResponse)

  /** The request produced a presentation: an ok status, no `error`, and a
      status other than "error". */
  predicate Succeeded(o: Outcome) {
    o.Responded? && o.ok && o.result.error == "" && o.result.status != "error"
  }

  // The texts the handler writes.
  const ErrorFallback := "Ocorreu um erro ao gerar a apresentação."
  const ApiErrorPrefix := "Erro na API: "
  const ProcessingError := "Erro ao processar apresentação"
  const TextFallbackPrefix := "Apresentação gerada com base em: "

  /** The message of the `Error` the handler catches. */
  function FailureMessage(o: Outcome): (m: string)
    requires !Succeeded(o)
    ensures m != ""
    ensures o.Responded? && !o.ok ==> m == ApiErrorPrefix + NatToDecimal(o.status)
    ensures o.Responded? && o.ok && o.result.error != "" ==> m == o.result.error
    ensures o.Responded? && o.ok && o.result.error == "" ==> m == ProcessingError
    ensures o.Thrown? && o.message != "" ==> m == o.message
  {
    match o
    case Thrown(message) => if message != "" then message else ErrorFallback
    case Responded(ok, status, result) =>
      if !ok then ApiErrorPrefix + NatToDecimal(status)
      else if result.error != "" then result.error
      else ProcessingError
  }

  /** The text shown after a success: the reply's `text`, or a sentence
      quoting the description when it is empty. */
  function PresentationText(result: PresentationResponse, description: string): (t: string)
    ensures t != ""
    ensures result.text != "" ==> t == result.text
    ensures result.text == "" ==> Contains(t, "\"" + description + "\"")
  {
    if result.text != "" then result.text
    else
      var quoted := "\"" + description + "\"";
      var front := TextFallbackPrefix;
      InfixContained(front, quoted, []);
      assert front + quoted + [] == front + quoted;
      front + quoted
  }

  /** The start of `handleGenerate`: the loading screen, no error. */
  function Start(s: ModalState): (r: ModalState)
    ensures r.step == LoadingStep && r.error == "" && r.isGenerating
    ensures r.description == s.description && r.generatedText == s.generatedText
    ensures r.screenshots == s.screenshots
  {
    s.(step := LoadingStep, error := "", isGenerating := true)
  }

  /** The end of `handleGenerate`, once the request has ended with `o` and
      `graphs` were captured: the result screen with the presentation and
      the captures on success, the error screen with a message otherwise;
      generation is over either way. */
  function Finish(s: ModalState, o: Outcome, graphs: seq<string>): (r: ModalState)
    ensures !r.isGenerating
    ensures r.step == ResultStep <==> Succeeded(o)
    ensures r.step == ErrorStep <==> !Succeeded(o)
    ensures Succeeded(o) ==> r.generatedText != "" && r.screenshots == graphs && r.error == s.error
    ensures Succeeded(o) ==> r.generatedText == PresentationText(o.result, s.description)
    ensures !Succeeded(o) ==> r.error != "" && r.generatedText == s.generatedText && r.screenshots == s.screenshots
    ensures !Succeeded(o) ==> r.error == FailureMessage(o)
    ensures r.description == s.description
  {
    if Succeeded(o) then
      s.(generatedText := PresentationText(o.result, s.description), screenshots := graphs,
         step := ResultStep, isGenerating := false)
    else
      s.(error := FailureMessage(o), step := ErrorStep, isGenerating := false)
  }

  /** `handleClose`: ignored while generating, otherwise `handleReset`. */
  function Closed(s: ModalState): (r: ModalState)
    ensures s.isGenerating ==> r == s
    ensures !s.isGenerating ==> r == Initial
  {
    if s.isGenerating then s else Initial
  }

  /** `handleRetry`: back to the input screen without the error; the
      description typed before is kept. */
  function Retried(s: ModalState): (r: ModalState)
    ensures r.step == InputStep && r.error == ""
    ensures r.description == s.description && r.isGenerating == s.isGenerating
    ensures r.generatedText == s.generatedText && r.screenshots == s.screenshots
  {
    s.(step := InputStep, error := "")
  }

  /** `disabled={!description.trim() || isGenerating}` on the generate button. */
  predicate GenerateDisabled(s: ModalState) {
    Trim(s.description) == "" || s.isGenerating
  }

  /** Every handler keeps the loading screen tied to a running generation. */
  lemma TransitionsKeepValid(s: ModalState, o: Outcome, graphs: seq<string>)
    requires Valid(s)
    ensures Valid(Initial)
    ensures Valid(Start(s))
    ensures s.step == LoadingStep ==> Valid(Finish(s, o, graphs))
    ensures Valid(Closed(s))
    ensures s.step == ErrorStep ==> Valid(Retried(s))
  {
  }

  /** A generation that starts from a valid state ends on the result or
      error screen, not generating, with the description it started with. */
  lemma GenerateRoundTrip(s: ModalState, o: Outcome, graphs: seq<string>)
    requires Valid(s) && !GenerateDisabled(s)
    ensures var r := Finish(Start(s), o, graphs);
      && Valid(r)
      && (r.step == ResultStep || r.step == ErrorStep)
      && r.description == s.description
      && (r.step == ErrorStep ==> r.error != "")
  {
  }

  /** Retrying after a failure and generating again sends the same
      description. */
  lemma RetryThenGenerate(s: ModalState)
    requires Valid(s) && s.step == ErrorStep && Trim(s.description) != ""
    ensures !GenerateDisabled(Retried(s))
    ensures Start(Retried(s)).description == s.description
  {
  }

  /** The dialog as a component: the state variables and the handlers that
      set them. */
  class Modal {
    var step: Step
    var description: string
    var generatedText: string
    var screenshots: seq<string>
    var error: string
    var isGenerating: bool

    function State(): ModalState
      reads this
    {
      ModalState(step, description, generatedText, screenshots, error, isGenerating)
    }

    constructor()
      ensures State() == Initial
    {
      step := InputStep;
      description := "";
      generatedText := "";
      screenshots := [];
      error := "";
      isGenerating := false;
    }

    /** The textarea's `onChange`; the textarea is disabled while generating. */
    method Type(text: string)
      modifies this
      ensures old(isGenerating) ==> State() == old(State())
      ensures !old(isGenerating) ==> State() == old(State()).(description := text)
    {
      if !isGenerating {
        description := text;
      }
    }

    /** The first three setter calls of `handleGenerate`. */
    method StartGenerate()
      modifies this
      ensures State() == Start(old(State()))
    {
      step := LoadingStep;
      error := "";
      isGenerating := true;
    }

    /** The rest of `handleGenerate`, once the request ended with `o`:
        the `try`, `catch` and `finally` branches. */
    method FinishGenerate(o: Outcome, graphs: seq<string>)
      modifies this
      ensures State() == Finish(old(State()), o, graphs)
    {
      if !o.Responded? || !o.ok {
        error := FailureMessage(o);
        step := ErrorStep;
      } else if o.result.error != "" || o.result.status == "error" {
        error := FailureMessage(o);
        step := ErrorStep;
      } else {
        generatedText := PresentationText(o.result, description);
        screenshots := graphs;
        step := ResultStep;
      }
      isGenerating := false;
    }

    /** `handleReset`. */
    method Reset()
      modifies this
      ensures State() == Initial
    {
      step := InputStep;
      description := "";
      generatedText := "";
      screenshots := [];
      error := "";
      isGenerating := false;
    }

    /** `handleClose`. */
    method Close()
      modifies this
      ensures State() == Closed(old(State()))
    {
      if !isGenerating {
        Reset();
      }
    }

    /** `handleRetry`. */
    method Retry()
      modifies this
      ensures State() == Retried(old(State()))
    {
      step := InputStep;
      error := "";
    }
  }

  /** `grafico-dashboard-${index + 1}.png`: the file name of the download
      of screenshot `index`. */
  function DownloadName(index: nat): (n: string)
    ensures IsPrefix("grafico-dashboard-", n)
    ensures |n| >= |"grafico-dashboard-.png"| + 1 && n[|n| - 4..] == ".png"
    ensures n[|"grafico-dashboard-"|..|n| - 4] == NatToDecimal(index + 1)
  {
    "grafico-dashboard-" + NatToDecimal(index + 1) + ".png"
  }

  /** Different screenshots download under different names. */
  lemma DownloadNamesDistinct(i: nat, j: nat)
    requires i != j
    ensures DownloadName(i) != DownloadName(j)
  {
    // the numbers between the fixed prefix and suffix differ
    assert DecimalValue(NatToDecimal(i + 1)) != DecimalValue(NatToDecimal(j + 1));
  }
}
