/** model_handlers.py, the older standalone copy of the assistant: its own
    smaller catalogue without icons, responses without ids, and a per-session
    request counter and history kept in memory. Its `FileProcessor` is the
    one of module `Files`. */
module Handlers {
  import opened Wrappers
  import opened Seqs
  import opened Models
  import Files

  const OpenAi := "https://api.openai.com/v1/chat/completions"
  const GeminiBase := "https://generativelanguage.googleapis.com/v1beta/models/"

  /** `self.models`, in its insertion order. */
  const Catalog: seq<Category> := [
    Category("Free Models", map[
      "Llama 2 (7B)" := ModelConfig("llama", "https://api.huggingface.co/models/meta-llama/Llama-2-7b-chat-hf",
        false, "Open source large language model by Meta", None, None),
      "Gemini Pro" := ModelConfig("gemini", GeminiBase + "gemini-pro", true,
        "Google's multimodal AI model", None, None),
      "GPT-3.5 Turbo" := ModelConfig("openai", OpenAi, true,
        "OpenAI's GPT-3.5 model", None, None)
    ]),
    Category("Paid Models", map[
      "GPT-4" := ModelConfig("openai", OpenAi, true,
        "OpenAI's most advanced model", None, None),
      "Claude 3" := ModelConfig("anthropic", "https://api.anthropic.com/v1/messages", true,
        "Anthropic's Claude 3 model", None, None),
      "Gemini Ultra" := ModelConfig("gemini", GeminiBase + "gemini-ultra", true,
        "Google's most advanced Gemini model", None, None)
    ])
  ]

  /** No model name is offered by both categories. */
  lemma CatalogNamesDisjoint()
    ensures NamesDisjoint(Catalog)
  {
    assert Catalog[0].models.Keys !! Catalog[1].models.Keys;
  }

  /** The response dictionary of `_simulate_api_call`: no display name and no
      response id; `summary` is present only in brief mode. */
  datatype Response = Response(
    model: string,
    timestamp: string,
    inputType: InputType,
    outputMode: string,
    content: string,
    summary: Option<string>)

  const BriefSummary := "This is a concise summary of the analysis."

  function BriefHeader(modelType: string): string {
    "Brief response from " + modelType + ": "
  }

  /** The brief answer names the model type and quotes the first 100
      characters of the prompt. */
  function BriefContent(modelType: string, prompt: string): (c: string)
    ensures Quotes(c, BriefQuote(prompt))
    ensures Quotes(c, modelType)
  {
    var h := BriefHeader(modelType);
    var q := BriefQuote(prompt);
    var c := h + q + "...";
    assert c[|h|..|h| + |q|] == q;
    assert c[20..20 + |modelType|] == modelType;
    c
  }

  /** The fixed lines of the detailed answer between the input analysis and
      the model line, and the fixed lines after it. */
  const DetailedBody: seq<string> := [
    "",
    "Comprehensive Response:",
    "This is a detailed analysis of your input. The model has processed the information",
    "and provided insights based on the context and requirements.",
    "",
    "Key Points:",
    "1. Input processing completed successfully",
    "2. Model-specific analysis performed",
    "3. Context-aware response generated",
    "4. Recommendations provided",
    "",
    "Technical Details:" ]

  const DetailedTail: seq<string> := [
    "- Processing Time: ~2.5 seconds",
    "- Confidence Score: 0.92",
    "- Tokens Used: 1,247" ]

  /** The detailed answer quotes the whole prompt and says whether an image
      and a file came with it. */
  function DetailedContent(prompt: string, hasImage: bool, hasFile: bool, modelType: string): (c: string)
    ensures Quotes(c, "- Text: " + prompt)
    ensures Quotes(c, "- Has Image: " + YesNo(hasImage))
    ensures Quotes(c, "- Has File: " + YesNo(hasFile))
    ensures Quotes(c, "- Model: " + modelType)
  {
    var top := ["Detailed Analysis from " + modelType + ":", "", "Input Analysis:",
                "- Text: " + prompt, "- Has Image: " + YesNo(hasImage), "- Has File: " + YesNo(hasFile)];
    var lines := top + DetailedBody + ["- Model: " + modelType] + DetailedTail;
    assert lines[3] == top[3] && lines[4] == top[4] && lines[5] == top[5];
    assert lines[18] == "- Model: " + modelType;
    TemplateQuotesLines(lines, 3);
    TemplateQuotesLines(lines, 4);
    TemplateQuotesLines(lines, 5);
    TemplateQuotesLines(lines, 18);
    Template(lines)
  }

  /** `_simulate_api_call`; the clock reading is a parameter. */
  function SimulateApiCall(config: ModelConfig, input: InputData, outputMode: string, now: string): (r: Response)
    ensures r.model == config.modelType && r.timestamp == now && r.outputMode == outputMode
    ensures r.inputType == TextOnly <==> input.image.None? && input.fileContent.None?
    ensures outputMode == "brief" ==>
      Quotes(r.content, BriefQuote(input.text)) && Quotes(r.content, config.modelType) && r.summary == Some(BriefSummary)
    ensures outputMode != "brief" ==>
      && Quotes(r.content, "- Text: " + input.text)
      && Quotes(r.content, "- Has Image: " + YesNo(input.image.Some?))
      && Quotes(r.content, "- Has File: " + YesNo(input.fileContent.Some?))
      && r.summary == None
  {
    var brief := outputMode == "brief";
    Response(config.modelType, now, InputTypeOf(input), outputMode,
             if brief then BriefContent(config.modelType, input.text)
             else DetailedContent(input.text, input.image.Some?, input.fileContent.Some?, config.modelType),
             if brief then Some(BriefSummary) else None)
  }

  /** `process_with_model`. The API key is accepted and not used. */
  method ProcessWithModel(name: string, input: InputData, outputMode: string, apiKey: string, now: string)
    returns (r: Result<Response, string>)
    ensures r.Failure? <==> forall i :: 0 <= i < |Catalog| ==> name !in Catalog[i].models
    ensures r.Failure? ==> r.error == "Model not found"
    ensures forall i :: 0 <= i < |Catalog| && name in Catalog[i].models ==>
      r == Success(SimulateApiCall(Catalog[i].models[name], input, outputMode, now))
  {
    CatalogNamesDisjoint();
    var config := FindModel(Catalog, name);
    if config.None? {
      return Failure("Model not found");
    }
    r := Success(SimulateApiCall(config.value, input, outputMode, now));
  }

  /** The description an upload contributes: the one `process_file` gives,
      when the mode has that uploader, the upload is there and it processes
      without error; otherwise none. */
  ghost function Kept(shown: bool, upload: Option<Files.Upload>): Option<Files.FileInfo> {
    if shown && upload.Some? && Files.Processed(upload).Success? then Some(Files.Processed(upload).value) else None
  }

  /** Building `input_data`: the text as typed, then the image and the file
      descriptions, each only when its upload was given and processed without
      error. */
  method CollectInput(mode: InputMode, text: string, image: Option<Files.Upload>, file: Option<Files.Upload>)
    returns (input: InputData)
    ensures input.text == (if mode.TakesText() then text else "")
    ensures input.image == Kept(mode.TakesImage(), image)
    ensures input.fileContent == Kept(mode.TakesFile(), file)
  {
    input := InputData(if mode.TakesText() then text else "", None, None);
    if mode.TakesImage() && image.Some? {
      var info := Files.ProcessFile(image);
      if info.Success? {
        input := input.(image := Some(info.value));
      }
    }
    if mode.TakesFile() && file.Some? {
      var info := Files.ProcessFile(file);
      if info.Success? {
        input := input.(fileContent := Some(info.value));
      }
    }
  }

  /** One entry of `st.session_state.history`. */
  datatype SessionEntry = SessionEntry(timestamp: string, model: string, input: InputData, output: string)

  const SessionHistoryShown := 5

  /** The per-session state `main` keeps: the request counter and the history
      of answered requests. Both start when first needed and only ever grow
      together, so the counter is the length of the history. */
  class Session {
    var sessionCount: nat
    var history: seq<SessionEntry>

    ghost predicate Valid()
      reads this
    {
      sessionCount == |history|
    }

    constructor ()
      ensures Valid() && history == []
    {
      sessionCount, history := 0, [];
    }

    /** The "Process with AI" button. The text is sent as typed; an upload that
        fails to process is silently left out; only an answer counts as a
        request and is appended to the history. */
    method Process(mode: InputMode, text: string, image: Option<Files.Upload>, file: Option<Files.Upload>,
                   selectedModel: string, outputMode: string, apiKey: string, now: string)
      returns (r: Result<Response, string>)
      requires Valid()
      modifies this
      ensures Valid()
      ensures r.Failure? <==> forall i :: 0 <= i < |Catalog| ==> selectedModel !in Catalog[i].models
      ensures r.Failure? ==>
        && r.error == "Model not found"
        && (forall i :: 0 <= i < |Catalog| ==> selectedModel !in Catalog[i].models)
        && sessionCount == old(sessionCount) && history == old(history)
      ensures r.Success? ==>
        && sessionCount == old(sessionCount) + 1
        && |history| == |old(history)| + 1
        && history[..|old(history)|] == old(history)
        && var e := history[|history| - 1];
           && e.timestamp == r.value.timestamp && e.model == r.value.model && e.output == r.value.content
           && e.input.text == (if mode.TakesText() then text else "")
           && e.input.image == Kept(mode.TakesImage(), image)
           && e.input.fileContent == Kept(mode.TakesFile(), file)
           && (forall i :: 0 <= i < |Catalog| && selectedModel in Catalog[i].models ==>
                 r.value == SimulateApiCall(Catalog[i].models[selectedModel], e.input, outputMode, now))
    {
      var input := CollectInput(mode, text, image, file);
      r := ProcessWithModel(selectedModel, input, outputMode, apiKey, now);
      if r.Success? {
        sessionCount := sessionCount + 1;
        history := history + [SessionEntry(r.value.timestamp, r.value.model, input, r.value.content)];
      }
    }

    /** The "Session History" section: the last five requests, newest first,
        each labelled with its request number. */
    function ShownHistory(): (shown: seq<(nat, SessionEntry)>)
      reads this
      requires Valid()
      ensures |shown| == if sessionCount < SessionHistoryShown then sessionCount else SessionHistoryShown
      ensures forall i :: 0 <= i < |shown| ==>
        shown[i].0 == sessionCount - i && 1 <= shown[i].0 <= sessionCount && shown[i].1 == history[shown[i].0 - 1]
    {
      NumberedRecent(history, SessionHistoryShown)
    }
  }
}
