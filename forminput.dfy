/**
 * Reading the generation form in js/app.js: `collectPayload`, and the aspect-ratio
 * presets that `updateDimensionsFromAspectRatio` writes into the width and height inputs.
 */
module FormInput {

  import opened Wrappers
  import opened JsStrings
  import opened Query

  /**
   * The form as `collectPayload` reads it. A text field is None when `formData.get`
   * returns null; a number field holds what `Number(...)` made of the input, None
   * for NaN; `checkboxes` maps each flag whose checkbox exists to its checked state.
   */
  datatype Form = Form(
    prompt: Option<string>,
    model: Option<string>,
    width: Option<int>,
    height: Option<int>,
    seed: Option<int>,
    guidanceScale: Option<int>,
    negativePrompt: Option<string>,
    quality: Option<string>,
    checkboxes: map<Flag, bool>)

  /** The order in which `collectPayload` visits the boolean flags. */
  const FlagOrder: seq<Flag> := [Enhance, Private, NoLogo, NoFeed, Safe, Transparent]

  /** `(formData.get(name) || '')`. */
  function OrEmpty(s: Option<string>): string
  {
    match s
    case Some(text) => text
    case None => ""
  }

  /** A dimension is kept only when it is a number greater than 0. */
  function PositiveOnly(n: Option<int>): (r: Option<int>)
    ensures r.Some? <==> n.Some? && n.value > 0
    ensures r.Some? ==> r == n
  {
    if n.Some? && n.value > 0 then n else None
  }

  /** An optional text is kept only when it is not empty. */
  function NonEmptyOnly(s: string): (r: Option<string>)
    ensures r.Some? <==> s != ""
    ensures r.Some? ==> r.value == s
  {
    if s != "" then Some(s) else None
  }

  /** `checkbox && checkbox.checked`: the flag's checkbox exists and is checked. */
  predicate IsChecked(f: Form, g: Flag)
  {
    g in f.checkboxes && f.checkboxes[g]
  }

  /** The flags set by visiting `flags` in order: those whose checkbox is checked. */
  function Checked(f: Form, flags: seq<Flag>): set<Flag>
  {
    if flags == [] then {}
    else
      var g := flags[|flags| - 1];
      Checked(f, flags[..|flags| - 1]) + if IsChecked(f, g) then {g} else {}
  }

  /** Visiting one more flag adds it exactly when its box exists and is checked. */
  lemma CheckedStep(f: Form, flags: seq<Flag>, i: nat)
    requires i < |flags|
    ensures Checked(f, flags[..i + 1])
      == Checked(f, flags[..i]) + if IsChecked(f, flags[i]) then {flags[i]} else {}
  {
    assert flags[..i + 1][..i] == flags[..i];
  }

  /** A visited flag is set exactly when it is checked; an unvisited flag is never set. */
  lemma {:induction false} CheckedMembers(f: Form, flags: seq<Flag>, g: Flag)
    ensures g in Checked(f, flags) <==> g in flags && IsChecked(f, g)
  {
    if flags != [] {
      var init := flags[..|flags| - 1];
      CheckedMembers(f, init, g);
      assert flags == init + [flags[|flags| - 1]];
    }
  }

  /** The payload of a missing form: `{}`, whose prompt and model are falsy. */
  const EmptyPayload: Payload := Payload("", "", None, None, None, None, None, None, {})

  /** The payload `collectPayload` returns, field by field. */
  function PayloadOf(form: Option<Form>): Payload
  {
    match form
    case None => EmptyPayload
    case Some(f) =>
      Payload(
        Trim(OrEmpty(f.prompt)),
        OrEmpty(f.model),
        PositiveOnly(f.width),
        PositiveOnly(f.height),
        f.seed,
        f.guidanceScale,
        NonEmptyOnly(Trim(OrEmpty(f.negativePrompt))),
        NonEmptyOnly(OrEmpty(f.quality)),
        Checked(f, FlagOrder))
  }

  /**
   * `collectPayload`: starts from the prompt and model and adds each optional field
   * that passes its test, then each checked flag in turn.
   */
  method CollectPayload(form: Option<Form>) returns (p: Payload)
    ensures p == PayloadOf(form)
  {
    if form.None? {
      return EmptyPayload;
    }
    var f := form.value;
    ghost var target := PayloadOf(form);
    p := Payload(Trim(OrEmpty(f.prompt)), OrEmpty(f.model), None, None, None, None, None, None, {});
    var width := f.width;
    if width.Some? && width.value > 0 {
      p := p.(width := width);
    }
    assert p == target.(height := None, seed := None, guidanceScale := None,
                        negativePrompt := None, quality := None, flags := {});
    var height := f.height;
    if height.Some? && height.value > 0 {
      p := p.(height := height);
    }
    assert p == target.(seed := None, guidanceScale := None,
                        negativePrompt := None, quality := None, flags := {});
    var seed := f.seed;
    if seed.Some? {
      p := p.(seed := seed);
    }
    assert p == target.(guidanceScale := None, negativePrompt := None, quality := None, flags := {});
    var guidance := f.guidanceScale;
    if guidance.Some? {
      p := p.(guidanceScale := guidance);
    }
    assert p == target.(negativePrompt := None, quality := None, flags := {});
    var negativePrompt := Trim(OrEmpty(f.negativePrompt));
    if negativePrompt != "" {
      p := p.(negativePrompt := Some(negativePrompt));
    }
    assert p == target.(quality := None, flags := {});
    var quality := OrEmpty(f.quality);
    if quality != "" {
      p := p.(quality := Some(quality));
    }
    assert p == target.(flags := {});
    var flags := CollectFlags(f);
    p := p.(flags := flags);
  }

  /** The flag loop of `collectPayload`: each flag whose box exists and is checked is set. */
  method CollectFlags(f: Form) returns (flags: set<Flag>)
    ensures flags == Checked(f, FlagOrder)
  {
    flags := {};
    var i := 0;
    while i < |FlagOrder|
      invariant 0 <= i <= |FlagOrder|
      invariant flags == Checked(f, FlagOrder[..i])
    {
      var flag := FlagOrder[i];
      if flag in f.checkboxes && f.checkboxes[flag] {
        flags := flags + {flag};
      }
      CheckedStep(f, FlagOrder, i);
      i := i + 1;
    }
    assert FlagOrder[..i] == FlagOrder;
  }

  /** Every flag is visited, so the payload's flags are exactly the checked boxes. */
  lemma PayloadFlags(f: Form, g: Flag)
    ensures g in PayloadOf(Some(f)).flags <==> IsChecked(f, g)
  {
    CheckedMembers(f, FlagOrder, g);
  }

  /**
   * Width and height reach the payload only as numbers greater than 0; seed and
   * guidance scale whenever they are numbers at all, so a seed of 0 is kept.
   */
  lemma PayloadNumbers(form: Form)
    ensures PayloadOf(Some(form)).width.Some? <==> form.width.Some? && form.width.value > 0
    ensures PayloadOf(Some(form)).height.Some? <==> form.height.Some? && form.height.value > 0
    ensures PayloadOf(Some(form)).width.Some? ==> PayloadOf(Some(form)).width == form.width
    ensures PayloadOf(Some(form)).height.Some? ==> PayloadOf(Some(form)).height == form.height
    ensures PayloadOf(Some(form)).seed == form.seed
    ensures PayloadOf(Some(form)).guidanceScale == form.guidanceScale
  {
  }

  /** The prompt and the negative prompt are trimmed; an all-blank negative prompt is dropped. */
  lemma PayloadTexts(form: Form)
    ensures IsTrimmed(PayloadOf(Some(form)).prompt)
    ensures PayloadOf(Some(form)).negativePrompt.Some? ==>
      PayloadOf(Some(form)).negativePrompt.value != "" && IsTrimmed(PayloadOf(Some(form)).negativePrompt.value)
    ensures PayloadOf(Some(form)).negativePrompt.None? <==> AllWhitespace(OrEmpty(form.negativePrompt))
  {
  }

  /** One entry of the aspect-ratio table: its option value, the ratio it names, and the pixel size. */
  datatype Preset = Preset(key: string, across: nat, down: nat, width: int, height: int)

  /** The `ratios` table of `updateDimensionsFromAspectRatio`, keyed by the option labels. */
  const Presets: seq<Preset> := [
    Preset("Ultrabreit (21:9)", 21, 9, 4788, 2052),
    Preset("Breitbild (16:9)", 16, 9, 3648, 2052),
    Preset("Klassisch (5:4)", 5, 4, 2560, 2048),
    Preset("Querformat (4:3)", 4, 3, 2732, 2049),
    Preset("Breit (3:2)", 3, 2, 3072, 2048),
    Preset("Quadratisch (1:1)", 1, 1, 2048, 2048),
    Preset("Standard (4:5)", 4, 5, 2048, 2560),
    Preset("Hochformat (3:4)", 3, 4, 2049, 2732),
    Preset("Hoch (2:3)", 2, 3, 2048, 3072),
    Preset("Vertikal (9:16)", 9, 16, 2052, 3648)
  ]

  /** The first entry of `table` labelled `ratio`, if any. */
  function FindPreset(table: seq<Preset>, ratio: string): (r: Option<Preset>)
    ensures r.Some? ==> r.value in table && r.value.key == ratio
    ensures r.None? ==> forall q :: q in table ==> q.key != ratio
  {
    if table == [] then None
    else if table[0].key == ratio then Some(table[0])
    else FindPreset(table[1..], ratio)
  }

  /**
   * `updateDimensionsFromAspectRatio` on the form's inputs: a known label sets width
   * and height to its size; "custom" and unknown labels leave the form as it was.
   */
  function ApplyAspectRatio(ratio: string, f: Form): (g: Form)
    ensures g.(width := f.width, height := f.height) == f
  {
    if ratio == "custom" then f
    else match FindPreset(Presets, ratio)
      case Some(q) => f.(width := Some(q.width), height := Some(q.height))
      case None => f
  }

  /** Each preset's size has exactly the ratio its label names, and both sides are positive. */
  lemma PresetsMatchTheirLabels()
    ensures forall q :: q in Presets ==> q.width * q.down == q.height * q.across
    ensures forall q :: q in Presets ==> q.width > 0 && q.height > 0
  {
    forall i | 0 <= i < |Presets|
      ensures Presets[i].width * Presets[i].down == Presets[i].height * Presets[i].across
    {
    }
  }

  /** No two entries of `table` share a label. */
  predicate LabelsDistinct(table: seq<Preset>)
  {
    forall i, j :: 0 <= i < j < |table| ==> table[i].key != table[j].key
  }

  /** The table has ten entries, their labels are pairwise distinct, and none is the "custom" option. */
  lemma PresetLabelsDistinct()
    ensures |Presets| == 10
    ensures LabelsDistinct(Presets)
    ensures forall q :: q in Presets ==> q.key != "custom"
  {
    // Labels that share a first letter differ in length.
    forall i, j | 0 <= i < j < |Presets| ensures Presets[i].key != Presets[j].key {
      assert Presets[i].key[0] != Presets[j].key[0] || |Presets[i].key| != |Presets[j].key|;
    }
  }

  /** With distinct labels, the lookup finds the one entry carrying the label. */
  lemma FindPresetUnique(table: seq<Preset>, q: Preset)
    requires LabelsDistinct(table) && q in table
    ensures FindPreset(table, q.key) == Some(q)
  {
  }

  /** A known label sets both dimensions to its entry's size. */
  lemma ApplyAspectRatioPreset(f: Form, q: Preset)
    requires q in Presets
    ensures ApplyAspectRatio(q.key, f) == f.(width := Some(q.width), height := Some(q.height))
  {
    PresetLabelsDistinct();
    assert q.key != "custom";
    FindPresetUnique(Presets, q);
  }

  /** "custom" and labels missing from the table leave the form unchanged. */
  lemma ApplyAspectRatioOther(ratio: string, f: Form)
    requires forall q :: q in Presets ==> q.key != ratio
    ensures ApplyAspectRatio(ratio, f) == f
  {
  }

  /** After choosing a preset, the collected payload carries its width and height. */
  lemma PresetReachesPayload(ratio: string, f: Form, q: Preset)
    requires q in Presets && q.key == ratio
    ensures PayloadOf(Some(ApplyAspectRatio(ratio, f))).width == Some(q.width)
    ensures PayloadOf(Some(ApplyAspectRatio(ratio, f))).height == Some(q.height)
  {
    ApplyAspectRatioPreset(f, q);
    PresetsMatchTheirLabels();
  }
}
