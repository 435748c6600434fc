/** The request side of app.py: the `AIModelManager` catalogue and its
    simulated call, the checks and steps behind the "Send to AI" button, and
    the feedback-analytics and history views. */
module App {
  import opened Wrappers
  import opened Seqs
  import opened Text
  import opened Models
  import Files
  import Auth

  // ---------------------------------------------------------------------------
  // The catalogue
  // ---------------------------------------------------------------------------

  /** The icon used where a configuration has none. */
  const DefaultIcon := "\U{1F916}"

  const OpenAi := "https://api.openai.com/v1/chat/completions"
  const Anthropic := "https://api.anthropic.com/v1/messages"
  const GeminiBase := "https://generativelanguage.googleapis.com/v1beta/models/"

  /** `self.models`, in its insertion order. */
  const Catalog: seq<Category> := [
    Category("Free Models", map[
      "Demo Model" := ModelConfig("demo", "local", false,
        "Local demo model - no API key needed", Some("\U{1F3AF}"), Some(1000)),
      "GPT-3.5 Turbo (Free Tier)" := ModelConfig("openai", OpenAi, true,
        "OpenAI's free tier - requires API key", Some("\U{1F9E0}"), Some(1000)),
      "Gemini Pro (Free Tier)" := ModelConfig("gemini", GeminiBase + "gemini-pro", true,
        "Google's free tier - requires API key", Some("\U{1F916}"), Some(1000)),
      "Claude 3 Haiku (Free)" := ModelConfig("anthropic", Anthropic, true,
        "Anthropic's fastest Claude model", Some("\U{1F3AD}"), Some(1000))
    ]),
    Category("Paid Models", map[
      "GPT-4" := ModelConfig("openai", OpenAi, true,
        "OpenAI's most advanced model", Some("\U{1F680}"), Some(4000)),
      "GPT-4 Turbo" := ModelConfig("openai", OpenAi, true,
        "OpenAI's latest GPT-4 model", Some("\U{26A1}"), Some(4000)),
      "Claude 3 Sonnet" := ModelConfig("anthropic", Anthropic, true,
        "Anthropic's balanced Claude model", Some("\U{1F3AD}"), Some(4000)),
      "Claude 3 Opus" := ModelConfig("anthropic", Anthropic, true,
        "Anthropic's most capable Claude model", Some("\U{1F451}"), Some(4000)),
      "Gemini Ultra" := ModelConfig("gemini", GeminiBase + "gemini-ultra", true,
        "Google's most advanced Gemini model", Some("\U{2B50}"), Some(4000))
    ])
  ]

  /** No model name is offered by both categories, so the order in which the
      lookup visits them does not matter. */
  lemma CatalogNamesDisjoint()
    ensures NamesDisjoint(Catalog)
  {
    assert Catalog[0].models.Keys !! Catalog[1].models.Keys;
  }

  /** The demo model is the only one that runs without an API key. */
  lemma OnlyDemoRunsWithoutKey(i: int, name: string)
    requires 0 <= i < |Catalog| && name in Catalog[i].models
    ensures !Catalog[i].models[name].apiKeyRequired <==> i == 0 && name == "Demo Model"
  {
  }

  // ---------------------------------------------------------------------------
  // The simulated call
  // ---------------------------------------------------------------------------

  /** The response dictionary of `_simulate_api_call`. `summary` is present
      only in brief mode. */
  datatype Response = Response(
    model: string,
    modelName: string,
    timestamp: string,
    inputType: InputType,
    outputMode: string,
    responseId: string,
    content: string,
    summary: Option<string>)

  const BriefSummary := "This is a concise summary of the analysis."

  function BriefHeader(icon: string): string {
    "**" + icon + " Brief Response:**\n\n"
  }

  /** The brief answer: a bold header, the first 100 characters of the
      prompt and an ellipsis. */
  function BriefContent(icon: string, prompt: string): (c: string)
    ensures Quotes(c, BriefQuote(prompt))
  {
    var h := BriefHeader(icon);
    var q := BriefQuote(prompt);
    var c := h + q + "...";
    assert c[|h|..|h| + |q|] == q;
    c
  }

  /** The fixed lines of the detailed answer between the input analysis and
      the model line, and the fixed lines after it. */
  const DetailedBody: seq<string> := [
    "",
    "**Comprehensive Response:**",
    "This is a detailed analysis of your input. The model has processed the information",
    "and provided insights based on the context and requirements.",
    "",
    "**Key Points:**",
    "1. Input processing completed successfully",
    "2. Model-specific analysis performed",
    "3. Context-aware response generated",
    "4. Recommendations provided",
    "",
    "**Technical Details:**" ]

  const DetailedTail: seq<string> := [
    "- Processing Time: ~2.5 seconds",
    "- Confidence Score: 0.92",
    "- Tokens Used: 1,247" ]

  /** The detailed answer quotes the whole prompt and says whether an image
      and a file came with it. */
  function DetailedContent(icon: string, prompt: string, hasImage: bool, hasFile: bool, modelType: string): (c: string)
    ensures Quotes(c, "- Text: " + prompt)
    ensures Quotes(c, "- Has Image: " + YesNo(hasImage))
    ensures Quotes(c, "- Has File: " + YesNo(hasFile))
    ensures Quotes(c, "- Model: " + modelType)
  {
    var top := ["## " + icon + " Detailed Analysis", "", "**Input Analysis:**",
                "- Text: " + prompt, "- Has Image: " + YesNo(hasImage), "- Has File: " + YesNo(hasFile)];
    var lines := top + DetailedBody + ["- Model: " + modelType] + DetailedTail;
    assert lines[3] == top[3] && lines[4] == top[4] && lines[5] == top[5];
    assert lines[18] == "- Model: " + modelType;
    TemplateQuotesLines(lines, 3);
    TemplateQuotesLines(lines, 4);
    TemplateQuotesLines(lines, 5);
    TemplateQuotesLines(lines, 18);
    Template(lines)
  }

  /** `_simulate_api_call`; the clock reading and the fresh response id are
      parameters. */
  function SimulateApiCall(config: ModelConfig, input: InputData, outputMode: string,
                           now: string, responseId: string): (r: Response)
    ensures r.model == config.modelType && r.timestamp == now && r.outputMode == outputMode
    ensures r.modelName == config.icon.GetOr(DefaultIcon) + " " + config.modelType
    ensures r.responseId == responseId
    ensures r.inputType == TextOnly <==> input.image.None? && input.fileContent.None?
    ensures outputMode == "brief" ==> Quotes(r.content, BriefQuote(input.text)) && r.summary == Some(BriefSummary)
    ensures outputMode != "brief" ==>
      && Quotes(r.content, "- Text: " + input.text)
      && Quotes(r.content, "- Has Image: " + YesNo(input.image.Some?))
      && Quotes(r.content, "- Has File: " + YesNo(input.fileContent.Some?))
      && r.summary == None
  {
    var icon := config.icon.GetOr(DefaultIcon);
    var brief := outputMode == "brief";
    Response(config.modelType, icon + " " + config.modelType, now, InputTypeOf(input), outputMode, responseId,
             if brief then BriefContent(icon, input.text)
             else DetailedContent(icon, input.text, input.image.Some?, input.fileContent.Some?, config.modelType),
             if brief then Some(BriefSummary) else None)
  }

  /** `process_with_model`: find the configuration, then simulate the call.
      The API key is accepted and not used. */
  method ProcessWithModel(name: string, input: InputData, outputMode: string, apiKey: Option<string>,
                          now: string, responseId: string)
    returns (r: Result<Response, string>)
    ensures r.Failure? <==> forall i :: 0 <= i < |Catalog| ==> name !in Catalog[i].models
    ensures r.Failure? ==> r.error == "Model not found"
    ensures forall i :: 0 <= i < |Catalog| && name in Catalog[i].models ==>
      r == Success(SimulateApiCall(Catalog[i].models[name], input, outputMode, now, responseId))
  {
    CatalogNamesDisjoint();
    var config := FindModel(Catalog, name);
    if config.None? {
      return Failure("Model not found");
    }
    r := Success(SimulateApiCall(config.value, input, outputMode, now, responseId));
  }

  // ---------------------------------------------------------------------------
  // Feedback analytics and history
  // ---------------------------------------------------------------------------

  /** What `show_feedback_analytics` displays. */
  datatype Analytics = Analytics(
    total: nat,
    positive: nat,
    negative: nat,
    rate: Auth.Percentage,
    recent: seq<Auth.FeedbackEntry>)

  const RecentFeedbackShown := 10

  /** `show_feedback_analytics`: nothing to show for an empty list; otherwise the
      counts, the satisfaction rate and the last ten entries, newest first. */
  function AnalyzeFeedback(entries: seq<Auth.FeedbackEntry>): (a: Option<Analytics>)
    ensures a.None? <==> entries == []
    ensures a.Some? ==>
      && a.value.total == |entries|
      && a.value.positive == Auth.CountRating(entries, "positive")
      && a.value.negative == Auth.CountRating(entries, "negative")
      && a.value.positive + a.value.negative <= a.value.total
      && a.value.rate.numerator * a.value.total == 100 * a.value.positive * a.value.rate.denominator
      && a.value.rate.numerator <= 100 * a.value.rate.denominator
      && a.value.rate == Auth.SatisfactionRate(a.value.positive, a.value.total)
      && |a.value.recent| == (if |entries| < RecentFeedbackShown then |entries| else RecentFeedbackShown)
      && forall i :: 0 <= i < |a.value.recent| ==> a.value.recent[i] == entries[|entries| - 1 - i]
  {
    if entries == [] then None
    else
      Auth.RatingsBounded(entries);
      var positive := Auth.CountRating(entries, "positive");
      var negative := Auth.CountRating(entries, "negative");
      Some(Analytics(|entries|, positive, negative, Auth.SatisfactionRate(positive, |entries|),
                     Recent(entries, RecentFeedbackShown)))
  }

  /** A saved chat: what `show_chat_page` passes to `save_user_history`. */
  datatype HistoryEntry = HistoryEntry(timestamp: string, modelName: string, input: InputData,
                                       output: string, responseId: string)

  const HistoryShown := 20

  /** `show_history_page`: the last twenty chats, newest first, each labelled
      with its one-based position in the whole history. */
  function HistoryPage(history: seq<HistoryEntry>): (page: seq<(nat, HistoryEntry)>)
    ensures |page| == if |history| < HistoryShown then |history| else HistoryShown
    ensures forall i :: 0 <= i < |page| ==>
      page[i].0 == |history| - i && 1 <= page[i].0 <= |history| && page[i].1 == history[page[i].0 - 1]
  {
    NumberedRecent(history, HistoryShown)
  }

  // ---------------------------------------------------------------------------
  // Sending a request
  // ---------------------------------------------------------------------------

  /** Why "Send to AI" shows an error instead of an answer. */
  datatype SendError =
    | NoInput
    | MissingApiKey
    | ImageFailed(imageError: Files.FileError)
    | FileFailed(fileError: Files.FileError)
    | ModelFailed(modelError: string)
  {
    function Message(): string {
      match this
      case NoInput => "\U{26A0}\U{FE0F} Please provide some input (text, image, or file)"
      case MissingApiKey => "\U{26A0}\U{FE0F} API key is required for this model"
      case ImageFailed(e) => "Image processing error: " + e.Message()
      case FileFailed(e) => "File processing error: " + e.Message()
      case ModelFailed(e) => "\U{274C} Error: " + e
    }
  }

  /** `has_text`: the mode has a text box and its text is not blank. */
  predicate HasText(mode: InputMode, text: string): (b: bool)
    ensures b <==> mode.TakesText() && exists i :: 0 <= i < |text| && !IsSpace(text[i])
  {
    mode.TakesText() && Strip(text) != []
  }

  predicate HasImage(mode: InputMode, image: Option<Files.Upload>) {
    mode.TakesImage() && image.Some?
  }

  predicate HasFile(mode: InputMode, file: Option<Files.Upload>) {
    mode.TakesFile() && file.Some?
  }

  /** The image is to be sent, and `process_file` rejects it. */
  ghost predicate ImageFails(mode: InputMode, image: Option<Files.Upload>) {
    HasImage(mode, image) && Files.Processed(image).Failure?
  }

  /** The file is to be sent, and `process_file` rejects it. */
  ghost predicate FileFails(mode: InputMode, file: Option<Files.Upload>) {
    HasFile(mode, file) && Files.Processed(file).Failure?
  }

  /** `not api_key`: no key field shown, or an empty one. */
  predicate HasApiKey(apiKey: Option<string>) {
    apiKey.Some? && apiKey.value != ""
  }

  /** The two checks made before any processing, in their order. */
  function SendCheck(mode: InputMode, text: string, image: Option<Files.Upload>, file: Option<Files.Upload>,
                     config: ModelConfig, apiKey: Option<string>): (e: Option<SendError>)
    ensures e == Some(NoInput) <==> !HasText(mode, text) && !HasImage(mode, image) && !HasFile(mode, file)
    ensures e == Some(MissingApiKey) <==>
      (HasText(mode, text) || HasImage(mode, image) || HasFile(mode, file)) && config.apiKeyRequired && !HasApiKey(apiKey)
    ensures e.None? || e == Some(NoInput) || e == Some(MissingApiKey)
  {
    if !HasText(mode, text) && !HasImage(mode, image) && !HasFile(mode, file) then Some(NoInput)
    else if config.apiKeyRequired && !HasApiKey(apiKey) then Some(MissingApiKey)
    else None
  }

  /** An answered request: the input as sent and the model's response. */
  datatype Sent = Sent(input: InputData, response: Response)

  /** The history entry saved for an answered request. */
  function HistoryEntryFor(s: Sent): (h: HistoryEntry)
    ensures h.timestamp == s.response.timestamp && h.modelName == s.response.modelName
    ensures h.input == s.input && h.output == s.response.content && h.responseId == s.response.responseId
  {
    HistoryEntry(s.response.timestamp, s.response.modelName, s.input, s.response.content, s.response.responseId)
  }

  /** Building `input_data` once validation has passed: the stripped text,
      then the image and then the file description; the first upload that fails
      to process aborts with its error. */
  method PrepareInput(mode: InputMode, text: string, image: Option<Files.Upload>, file: Option<Files.Upload>)
    returns (r: Result<InputData, SendError>)
    ensures r.Failure? <==> ImageFails(mode, image) || FileFails(mode, file)
    ensures ImageFails(mode, image) ==> r == Failure(ImageFailed(Files.Processed(image).error))
    ensures !ImageFails(mode, image) && FileFails(mode, file) ==> r == Failure(FileFailed(Files.Processed(file).error))
    ensures r.Success? ==>
      && r.value.text == (if HasText(mode, text) then Strip(text) else "")
      && r.value.image == (if HasImage(mode, image) then Some(Files.Processed(image).value) else None)
      && r.value.fileContent == (if HasFile(mode, file) then Some(Files.Processed(file).value) else None)
  {
    var input := InputData(if HasText(mode, text) then Strip(text) else "", None, None);
    if HasImage(mode, image) {
      var info := Files.ProcessFile(image);
      if info.Failure? {
        return Failure(ImageFailed(info.error));
      }
      input := input.(image := Some(info.value));
    }
    if HasFile(mode, file) {
      var info := Files.ProcessFile(file);
      if info.Failure? {
        return Failure(FileFailed(info.error));
      }
      input := input.(fileContent := Some(info.value));
    }
    return Success(input);
  }

  /** The "Send to AI" button of `show_chat_page`: validate, prepare the
      input, call the model, and on an answer append it to the user's
      history. Nothing is saved on any error. */
  method SendToAi(auth: Auth.UserAuth<HistoryEntry>, email: string, selectedModel: string, config: ModelConfig,
                  apiKey: Option<string>, outputMode: string, mode: InputMode, text: string,
                  image: Option<Files.Upload>, file: Option<Files.Upload>, now: string, responseId: string)
    returns (r: Result<Sent, SendError>)
    modifies auth`history
    ensures SendCheck(mode, text, image, file, config, apiKey).Some? ==>
      r == Failure(SendCheck(mode, text, image, file, config, apiKey).value)
    ensures r.Failure? ==> auth.history == old(auth.history)
    ensures SendCheck(mode, text, image, file, config, apiKey).None? && ImageFails(mode, image) ==>
      r == Failure(ImageFailed(Files.Processed(image).error))
    ensures SendCheck(mode, text, image, file, config, apiKey).None? && !ImageFails(mode, image) && FileFails(mode, file) ==>
      r == Failure(FileFailed(Files.Processed(file).error))
    ensures r.Failure? && (r.error.NoInput? || r.error.MissingApiKey?) ==>
      SendCheck(mode, text, image, file, config, apiKey).Some?
    ensures SendCheck(mode, text, image, file, config, apiKey).None? && !ImageFails(mode, image) && !FileFails(mode, file) ==>
      (r.Success? <==> exists i :: 0 <= i < |Catalog| && selectedModel in Catalog[i].models)
    ensures r.Failure? && r.error.ImageFailed? ==> ImageFails(mode, image)
    ensures r.Failure? && r.error.FileFailed? ==> FileFails(mode, file)
    ensures r.Failure? && r.error.ModelFailed? ==>
      r.error.modelError == "Model not found" &&
      forall i :: 0 <= i < |Catalog| ==> selectedModel !in Catalog[i].models
    ensures r.Success? ==>
      var s := r.value;
      && SendCheck(mode, text, image, file, config, apiKey).None?
      && s.input.text == (if HasText(mode, text) then Strip(text) else "")
      && s.input.image == (if HasImage(mode, image) then Some(Files.Processed(image).value) else None)
      && s.input.fileContent == (if HasFile(mode, file) then Some(Files.Processed(file).value) else None)
      && (forall i :: 0 <= i < |Catalog| && selectedModel in Catalog[i].models ==>
            s.response == SimulateApiCall(Catalog[i].models[selectedModel], s.input, outputMode, now, responseId))
      && auth.history == old(auth.history)[email := old(auth.GetUserHistory(email)) + [HistoryEntryFor(s)]]
  {
    var check := SendCheck(mode, text, image, file, config, apiKey);
    if check.Some? {
      return Failure(check.value);
    }
    var input := PrepareInput(mode, text, image, file);
    if input.Failure? {
      return Failure(input.error);
    }
    var result := ProcessWithModel(selectedModel, input.value, outputMode, apiKey, now, responseId);
    if result.Failure? {
      return Failure(ModelFailed(result.error));
    }
    var sent := Sent(input.value, result.value);
    auth.SaveUserHistory(email, HistoryEntryFor(sent));
    return Success(sent);
  }

  /** The image uploader also accepts `.webp`, and the file uploader `.json`
      and `.xml`, none of which `process_file` supports: such an upload always
      ends in an image or file processing error. */
  lemma AcceptedButUnsupported(ext: string)
    requires ext in {".webp", ".json", ".xml"}
    ensures Files.KindOf(ext) == Files.Unknown
  {
    if Files.KindOf(ext) != Files.Unknown {
      Files.KindOfListed(ext, Files.KindOf(ext));
    }
  }
}
