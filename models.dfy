/** What the two copies of `AIModelManager` share: a catalogue of model
    categories, the lookup `process_with_model` does in it, the input
    dictionary a request carries and the `input_type` it is reported as. */
module Models {
  import opened Wrappers
  import opened Seqs
  import Files

  /** One model's configuration dictionary (the sampling temperature, a
      float the core never reads, is not part of this model). */
  datatype ModelConfig = ModelConfig(
    modelType: string,
    endpoint: string,
    apiKeyRequired: bool,
    description: string,
    icon: Option<string>,
    maxTokens: Option<nat>)

  /** One entry of `self.models`: a category name and its models by name. */
  datatype Category = Category(name: string, models: map<string, ModelConfig>)

  /** No model name appears in two categories. */
  ghost predicate NamesDisjoint(catalog: seq<Category>) {
    forall i, j :: 0 <= i < j < |catalog| ==> catalog[i].models.Keys !! catalog[j].models.Keys
  }

  /** Category `i` offers `name` and no earlier category does. */
  ghost predicate FirstOffering(catalog: seq<Category>, name: string, i: int) {
    && 0 <= i < |catalog|
    && name in catalog[i].models
    && forall k :: 0 <= k < i ==> name !in catalog[k].models
  }

  /** The lookup loop of `process_with_model`: the configuration from the
      first category that has `name`, or `None`. When no name is in two
      categories, that is the configuration of whichever category has it. */
  method FindModel(catalog: seq<Category>, name: string) returns (config: Option<ModelConfig>)
    ensures config.None? <==> forall i :: 0 <= i < |catalog| ==> name !in catalog[i].models
    ensures config.Some? ==> exists i :: FirstOffering(catalog, name, i) && config.value == catalog[i].models[name]
    ensures NamesDisjoint(catalog) ==>
      forall i :: 0 <= i < |catalog| && name in catalog[i].models ==> config == Some(catalog[i].models[name])
  {
    var i := 0;
    while i < |catalog|
      invariant 0 <= i <= |catalog|
      invariant forall k :: 0 <= k < i ==> name !in catalog[k].models
    {
      if name in catalog[i].models {
        config := Some(catalog[i].models[name]);
        assert FirstOffering(catalog, name, i);
        return;
      }
      i := i + 1;
    }
    config := None;
  }

  /** The `input_data` dictionary: the prompt text and the descriptions of an
      uploaded image and file, each present only when it was processed. */
  datatype InputData = InputData(text: string, image: Option<Files.FileInfo>, fileContent: Option<Files.FileInfo>)

  datatype InputType = TextOnly | Multimodal {
    function Name(): string {
      match this
      case TextOnly => "text"
      case Multimodal => "multimodal"
    }
  }

  /** `"text" if not image and not file_content else "multimodal"`. A present
      description is a non-empty dictionary, so it is always truthy. */
  function InputTypeOf(input: InputData): (t: InputType)
    ensures t == TextOnly <==> input.image.None? && input.fileContent.None?
  {
    if input.image.None? && input.fileContent.None? then TextOnly else Multimodal
  }

  /** The radio choice of input kinds on the chat page. */
  datatype InputMode = TextMode | ImageMode | FileMode | MultiModalMode {
    predicate TakesText() { TextMode? || MultiModalMode? }
    predicate TakesImage() { ImageMode? || MultiModalMode? }
    predicate TakesFile() { FileMode? || MultiModalMode? }
  }

  const BriefQuoteLength := 100

  /** `prompt[:100]`, the part of the prompt a brief answer quotes. */
  function BriefQuote(prompt: string): (q: string)
    ensures q <= prompt
    ensures |q| == if |prompt| < BriefQuoteLength then |prompt| else BriefQuoteLength
  {
    Take(prompt, BriefQuoteLength)
  }

  /** `t` occurs in `s` as a contiguous piece. */
  ghost predicate Quotes(s: string, t: string) {
    exists i, j :: 0 <= i <= j <= |s| && s[i..j] == t
  }

  /** The indentation every line of the detailed-answer template carries. */
  const Margin := "            "

  function Indented(lines: seq<string>): string {
    if lines == [] then "" else Margin + lines[0] + "\n" + Indented(lines[1..])
  }

  /** A triple-quoted template that opens with a newline, indents each of
      `lines` by the margin and closes on an indented empty line. */
  function Template(lines: seq<string>): string {
    "\n" + Indented(lines) + Margin
  }

  /** Proof helpers for LineOffset: a slice inside one part of a concatenation. */
  lemma SliceLeft(a: string, b: string, i: nat, j: nat)
    requires i <= j <= |a|
    ensures (a + b)[i..j] == a[i..j]
  {
  }

  lemma SliceRight(a: string, b: string, i: nat, j: nat)
    requires |a| <= i <= j <= |a| + |b|
    ensures (a + b)[i..j] == b[i - |a|..j - |a|]
  {
  }

  /** Where line `k` sits inside `Indented(lines)`. */
  lemma {:induction false} LineOffset(lines: seq<string>, k: nat) returns (off: nat)
    requires k < |lines|
    ensures off + |lines[k]| <= |Indented(lines)|
    ensures Indented(lines)[off..off + |lines[k]|] == lines[k]
  {
    var row := Margin + lines[0];
    var head := row + "\n";
    var tail := Indented(lines[1..]);
    assert Indented(lines) == head + tail;
    if k == 0 {
      off := |Margin|;
      SliceLeft(head, tail, off, off + |lines[0]|);
      SliceLeft(row, "\n", off, off + |lines[0]|);
      SliceRight(Margin, lines[0], off, off + |lines[0]|);
    } else {
      var rest := LineOffset(lines[1..], k - 1);
      off := |head| + rest;
      SliceRight(head, tail, off, off + |lines[k]|);
    }
  }

  /** Every line of a template appears in its text. */
  lemma TemplateQuotesLines(lines: seq<string>, k: nat)
    requires k < |lines|
    ensures Quotes(Template(lines), lines[k])
  {
    var off := LineOffset(lines, k);
    var t := Template(lines);
    assert t[1 + off..1 + off + |lines[k]|] == Indented(lines)[off..off + |lines[k]|];
    assert Quotes(t, lines[k]) by {
      assert 0 <= 1 + off <= 1 + off + |lines[k]| <= |t| && t[1 + off..1 + off + |lines[k]|] == lines[k];
    }
  }

  /** `'Yes' if x else 'No'`. */
  function YesNo(b: bool): string {
    if b then "Yes" else "No"
  }
}
