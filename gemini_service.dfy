/**
 * `enhancePrompt`: checks the prompt, frames it, sends one request to the generation backend,
 * and post-processes the reply. The backend call is the parameter `generate`; whatever it
 * does (network, API key, model behaviour) lies outside the model.
 */
module GeminiService {
  import opened Wrappers
  import opened Text
  import opened SettingsModal

  /** A thrown JavaScript value: an `Error` instance with its message, or anything else. */
  datatype Thrown = Error(message: string) | NonError

  /** What `generateContent` is called with. */
  datatype GenerateRequest = GenerateRequest(model: GeminiModel, contents: string, systemInstruction: string)

  /** How the awaited backend call ends: a response whose `text` may be undefined, or a throw. */
  datatype BackendReply = Response(text: Option<string>) | Threw(thrown: Thrown)

  const Preamble := "Here is the user's prompt to enhance:\n\n---\n\n"
  const EmptyPromptMessage := "Prompt cannot be empty."
  const FailurePrefix := "Failed to enhance prompt: "
  const EmptyResponseMessage := "The model returned an empty response."
  const UnknownErrorMessage := "An unknown error occurred while enhancing the prompt."

  /** The text sent to the backend: the fixed preamble, then the prompt exactly as given. */
  function FramePrompt(originalPrompt: string): (r: string)
    ensures |r| == |Preamble| + |originalPrompt|
    ensures r[..|Preamble|] == Preamble && r[|Preamble|..] == originalPrompt
  {
    Preamble + originalPrompt
  }

  /** The one request `enhancePrompt` sends for these arguments. */
  function RequestFor(originalPrompt: string, model: GeminiModel, systemInstruction: string): (r: GenerateRequest)
    ensures r.model == model && r.systemInstruction == systemInstruction
    ensures |r.contents| == |Preamble| + |originalPrompt|
    ensures r.contents[..|Preamble|] == Preamble && r.contents[|Preamble|..] == originalPrompt
  {
    GenerateRequest(model, FramePrompt(originalPrompt), systemInstruction)
  }

  /** The catch block: an `Error` is rethrown with the failure prefix, anything else becomes
      the fixed unknown-error message. */
  function Wrap(e: Thrown): (r: Thrown)
    ensures r.Error?
    ensures e.Error? ==> r.message == FailurePrefix + e.message
    ensures e.NonError? ==> r.message == UnknownErrorMessage
  {
    match e
    case Error(m) => Error(FailurePrefix + m)
    case NonError => Error(UnknownErrorMessage)
  }

  /**
   * `enhancePrompt(originalPrompt, model, systemInstruction)`. The blank check sits before the
   * `try`, so its error is not wrapped; the empty-response error is thrown inside the `try`, so
   * it is.
   */
  function EnhancePrompt(originalPrompt: string, model: GeminiModel, systemInstruction: string,
                         generate: GenerateRequest -> BackendReply): (r: Result<string, Thrown>)
    ensures IsBlank(originalPrompt) ==> r == Failure(Error(EmptyPromptMessage))
    ensures r.Failure? ==> r.error.Error?
    ensures r.Success? ==>
      var reply := generate(RequestFor(originalPrompt, model, systemInstruction));
      && !IsBlank(originalPrompt)
      && reply.Response? && reply.text.Some? && reply.text.value != ""
      && r.value == Trim(reply.text.value)
    ensures !IsBlank(originalPrompt) ==>
      var reply := generate(RequestFor(originalPrompt, model, systemInstruction));
      && (reply.Threw? ==> r == Failure(Wrap(reply.thrown)))
      && (reply.Response? && reply.text.Some? && reply.text.value != "" ==> r == Success(Trim(reply.text.value)))
  {
    if IsBlank(originalPrompt) then
      Failure(Error(EmptyPromptMessage))
    else
      match generate(RequestFor(originalPrompt, model, systemInstruction))
      case Threw(e) => Failure(Wrap(e))
      case Response(text) =>
        if text == None || text == Some("") then Failure(Wrap(Error(EmptyResponseMessage)))
        else Success(Trim(text.value))
  }

  /** A blank prompt never reaches the backend: the outcome is the same whatever it would do. */
  lemma BlankPromptSendsNothing(originalPrompt: string, model: GeminiModel, systemInstruction: string,
                                g1: GenerateRequest -> BackendReply, g2: GenerateRequest -> BackendReply)
    requires IsBlank(originalPrompt)
    ensures EnhancePrompt(originalPrompt, model, systemInstruction, g1)
         == EnhancePrompt(originalPrompt, model, systemInstruction, g2)
  {
  }

  /** Only one request is sent, the framed one: two backends that answer it alike give the
      same outcome. */
  lemma OnlyTheFramedRequestMatters(originalPrompt: string, model: GeminiModel, systemInstruction: string,
                                    g1: GenerateRequest -> BackendReply, g2: GenerateRequest -> BackendReply)
    requires g1(RequestFor(originalPrompt, model, systemInstruction)) == g2(RequestFor(originalPrompt, model, systemInstruction))
    ensures EnhancePrompt(originalPrompt, model, systemInstruction, g1)
         == EnhancePrompt(originalPrompt, model, systemInstruction, g2)
  {
  }

  /** A missing or empty response text fails with the wrapped empty-response message. */
  lemma EmptyResponseFails(originalPrompt: string, model: GeminiModel, systemInstruction: string,
                           generate: GenerateRequest -> BackendReply)
    requires !IsBlank(originalPrompt)
    requires generate(RequestFor(originalPrompt, model, systemInstruction)) in {Response(None), Response(Some(""))}
    ensures EnhancePrompt(originalPrompt, model, systemInstruction, generate)
         == Failure(Error(FailurePrefix + EmptyResponseMessage))
  {
  }

  /** A response made only of white space is not empty, so it succeeds with the empty string. */
  lemma WhitespaceResponseSucceedsEmpty(originalPrompt: string, model: GeminiModel, systemInstruction: string,
                                        generate: GenerateRequest -> BackendReply, text: string)
    requires !IsBlank(originalPrompt) && text != "" && AllWhitespace(text)
    requires generate(RequestFor(originalPrompt, model, systemInstruction)) == Response(Some(text))
    ensures EnhancePrompt(originalPrompt, model, systemInstruction, generate) == Success("")
  {
    BlankIffAllWhitespace(text);
  }

  /** A successful result neither starts nor ends with white space. */
  lemma {:induction false} ResultIsTrimmed(originalPrompt: string, model: GeminiModel, systemInstruction: string,
                                           generate: GenerateRequest -> BackendReply)
    requires EnhancePrompt(originalPrompt, model, systemInstruction, generate).Success?
    ensures var r := EnhancePrompt(originalPrompt, model, systemInstruction, generate).value;
      r == [] || (!IsWhitespace(r[0]) && !IsWhitespace(r[|r| - 1]))
  {
    var reply := generate(RequestFor(originalPrompt, model, systemInstruction));
    TrimIsInfix(reply.text.value);
  }

  /** Every failure is one of: the unwrapped blank-prompt error, a prefixed backend or
      empty-response error, or the fixed unknown-error message. */
  lemma FailureMessageForms(originalPrompt: string, model: GeminiModel, systemInstruction: string,
                            generate: GenerateRequest -> BackendReply)
    requires EnhancePrompt(originalPrompt, model, systemInstruction, generate).Failure?
    ensures var m := EnhancePrompt(originalPrompt, model, systemInstruction, generate).error.message;
      || m == EmptyPromptMessage
      || m == UnknownErrorMessage
      || (|FailurePrefix| <= |m| && m[..|FailurePrefix|] == FailurePrefix)
  {
  }

  /** The blank-prompt message is reported exactly when the prompt is blank: no backend
      failure is ever mistaken for it. */
  lemma {:induction false} EmptyPromptErrorIffBlank(originalPrompt: string, model: GeminiModel, systemInstruction: string,
                                                    generate: GenerateRequest -> BackendReply)
    requires EnhancePrompt(originalPrompt, model, systemInstruction, generate).Failure?
    ensures EnhancePrompt(originalPrompt, model, systemInstruction, generate).error.message == EmptyPromptMessage
        <==> IsBlank(originalPrompt)
  {
  }
}
