/**
 * The request payload and the query parameters `generateImage` in js/app.js
 * builds from it.
 */
module Query {

  import opened Wrappers
  import opened Seqs

  /** The boolean options of the form; a payload holds the ones that were checked. */
  datatype Flag = Enhance | Private | NoLogo | NoFeed | Safe | Transparent

  /**
   * A payload as `collectPayload` builds it. Numbers are the results of `Number(...)`,
   * absent when the payload has no such field; `flags` holds every flag set to true.
   */
  datatype Payload = Payload(
    prompt: string,
    model: string,
    width: Option<int>,
    height: Option<int>,
    seed: Option<int>,
    guidanceScale: Option<int>,
    negativePrompt: Option<string>,
    quality: Option<string>,
    flags: set<Flag>)

  /** A value handed to `URLSearchParams.append`: a number or a string. */
  datatype ParamValue = Number(n: int) | Text(s: string)

  /** One `name=value` pair of the query. */
  datatype Param = Param(name: string, value: ParamValue)

  /** The payload fields `generateImage` may turn into query parameters. */
  datatype Field =
    | ModelField | WidthField | HeightField | SeedField | GuidanceScaleField
    | NegativePromptField | QualityField | FlagField(flag: Flag)

  /** The order in which `generateImage` considers the fields. */
  const QueryOrder: seq<Field> := [
    ModelField, WidthField, HeightField, SeedField, GuidanceScaleField,
    NegativePromptField, QualityField,
    FlagField(Enhance), FlagField(Private), FlagField(NoLogo),
    FlagField(NoFeed), FlagField(Safe), FlagField(Transparent)]

  /** The query parameter name of each field. */
  function FieldName(f: Field): string
  {
    match f
    case ModelField => "model"
    case WidthField => "width"
    case HeightField => "height"
    case SeedField => "seed"
    case GuidanceScaleField => "guidance_scale"
    case NegativePromptField => "negative_prompt"
    case QualityField => "quality"
    case FlagField(Enhance) => "enhance"
    case FlagField(Private) => "private"
    case FlagField(NoLogo) => "nologo"
    case FlagField(NoFeed) => "nofeed"
    case FlagField(Safe) => "safe"
    case FlagField(Transparent) => "transparent"
  }

  /** JavaScript truthiness of an optional number field: present and not 0. */
  predicate NumberIsTruthy(n: Option<int>)
  {
    n.Some? && n.value != 0
  }

  /** JavaScript truthiness of an optional string field: present and not empty. */
  predicate TextIsTruthy(s: Option<string>)
  {
    s.Some? && s.value != ""
  }

  /**
   * The value sent for field `f`, or None when the payload's field is falsy and
   * `generateImage` skips it. Flags always send the text "true".
   */
  function FieldValue(p: Payload, f: Field): Option<ParamValue>
  {
    match f
    case ModelField => if p.model != "" then Some(Text(p.model)) else None
    case WidthField => if NumberIsTruthy(p.width) then Some(Number(p.width.value)) else None
    case HeightField => if NumberIsTruthy(p.height) then Some(Number(p.height.value)) else None
    case SeedField => if NumberIsTruthy(p.seed) then Some(Number(p.seed.value)) else None
    case GuidanceScaleField =>
      if NumberIsTruthy(p.guidanceScale) then Some(Number(p.guidanceScale.value)) else None
    case NegativePromptField =>
      if TextIsTruthy(p.negativePrompt) then Some(Text(p.negativePrompt.value)) else None
    case QualityField => if TextIsTruthy(p.quality) then Some(Text(p.quality.value)) else None
    case FlagField(g) => if g in p.flags then Some(Text("true")) else None
  }

  /** The parameter field `f` contributes: one pair when its value is truthy, none otherwise. */
  function Contribution(p: Payload, f: Field): seq<Param>
  {
    match FieldValue(p, f)
    case Some(v) => [Param(FieldName(f), v)]
    case None => []
  }

  /** The parameters the fields `fields` contribute, in their order. */
  function Select(p: Payload, fields: seq<Field>): seq<Param>
  {
    if fields == [] then []
    else Select(p, fields[..|fields| - 1]) + Contribution(p, fields[|fields| - 1])
  }

  /** The query of `generateImage`: every truthy field, in the fixed order. */
  function QueryParams(p: Payload): seq<Param>
  {
    Select(p, QueryOrder)
  }

  /** Extending a prefix of a field list by one field appends that field's contribution. */
  lemma SelectPrefix(p: Payload, fields: seq<Field>, k: nat)
    requires k < |fields|
    ensures Select(p, fields[..k + 1]) == Select(p, fields[..k]) + Contribution(p, fields[k])
  {
    assert fields[..k + 1][..k] == fields[..k];
  }

  /** The query written out field by field, in the order of the appends. */
  lemma {:induction false} QueryParamsUnrolled(p: Payload)
    ensures QueryParams(p) == []
      + Contribution(p, ModelField) + Contribution(p, WidthField) + Contribution(p, HeightField)
      + Contribution(p, SeedField) + Contribution(p, GuidanceScaleField)
      + Contribution(p, NegativePromptField) + Contribution(p, QualityField)
      + Contribution(p, FlagField(Enhance)) + Contribution(p, FlagField(Private))
      + Contribution(p, FlagField(NoLogo)) + Contribution(p, FlagField(NoFeed))
      + Contribution(p, FlagField(Safe)) + Contribution(p, FlagField(Transparent))
  {
    var q := QueryOrder;
    assert q[..0] == [];
    SelectPrefix(p, q, 0);
    SelectPrefix(p, q, 1);
    SelectPrefix(p, q, 2);
    SelectPrefix(p, q, 3);
    SelectPrefix(p, q, 4);
    SelectPrefix(p, q, 5);
    SelectPrefix(p, q, 6);
    SelectPrefix(p, q, 7);
    SelectPrefix(p, q, 8);
    SelectPrefix(p, q, 9);
    SelectPrefix(p, q, 10);
    SelectPrefix(p, q, 11);
    SelectPrefix(p, q, 12);
    assert q[..13] == q;
  }

  /**
   * The parameter building of `generateImage`: one conditional append per field,
   * in the source's order, yielding the query the field table describes. The
   * thirteen appends are split across three methods to keep each proof small.
   */
  method BuildParams(p: Payload) returns (params: seq<Param>)
    ensures params == QueryParams(p)
  {
    params := [];
    params := AppendLeading(p, params);
    params := AppendTexts(p, params);
    params := AppendFlags(p, params);
    QueryParamsUnrolled(p);
  }

  /** The appends of `model`, `width`, `height` and `seed`. */
  method AppendLeading(p: Payload, params: seq<Param>) returns (r: seq<Param>)
    ensures r == params
      + Contribution(p, ModelField) + Contribution(p, WidthField) + Contribution(p, HeightField) + Contribution(p, SeedField)
  {
    r := params;
    if p.model != "" { r := r + [Param("model", Text(p.model))]; }
    assert r == params + Contribution(p, ModelField);
    if NumberIsTruthy(p.width) { r := r + [Param("width", Number(p.width.value))]; }
    assert r == params + Contribution(p, ModelField) + Contribution(p, WidthField);
    if NumberIsTruthy(p.height) { r := r + [Param("height", Number(p.height.value))]; }
    assert r == params + Contribution(p, ModelField) + Contribution(p, WidthField) + Contribution(p, HeightField);
    if NumberIsTruthy(p.seed) { r := r + [Param("seed", Number(p.seed.value))]; }
  }

  /** The appends of `guidance_scale`, `negative_prompt` and `quality`. */
  method AppendTexts(p: Payload, params: seq<Param>) returns (r: seq<Param>)
    ensures r == params
      + Contribution(p, GuidanceScaleField) + Contribution(p, NegativePromptField) + Contribution(p, QualityField)
  {
    r := params;
    if NumberIsTruthy(p.guidanceScale) {
      r := r + [Param("guidance_scale", Number(p.guidanceScale.value))];
    }
    assert r == params + Contribution(p, GuidanceScaleField);
    if TextIsTruthy(p.negativePrompt) {
      r := r + [Param("negative_prompt", Text(p.negativePrompt.value))];
    }
    assert r == params + Contribution(p, GuidanceScaleField) + Contribution(p, NegativePromptField);
    if TextIsTruthy(p.quality) { r := r + [Param("quality", Text(p.quality.value))]; }
  }

  /** The appends of the six flags, each with the value "true". */
  method AppendFlags(p: Payload, params: seq<Param>) returns (r: seq<Param>)
    ensures r == params
      + Contribution(p, FlagField(Enhance)) + Contribution(p, FlagField(Private))
      + Contribution(p, FlagField(NoLogo)) + Contribution(p, FlagField(NoFeed))
      + Contribution(p, FlagField(Safe)) + Contribution(p, FlagField(Transparent))
  {
    r := params;
    if Enhance in p.flags { r := r + [Param("enhance", Text("true"))]; }
    assert r == params + Contribution(p, FlagField(Enhance));
    if Private in p.flags { r := r + [Param("private", Text("true"))]; }
    assert r == params + Contribution(p, FlagField(Enhance)) + Contribution(p, FlagField(Private));
    if NoLogo in p.flags { r := r + [Param("nologo", Text("true"))]; }
    assert r == params + Contribution(p, FlagField(Enhance)) + Contribution(p, FlagField(Private)) + Contribution(p, FlagField(NoLogo));
    if NoFeed in p.flags { r := r + [Param("nofeed", Text("true"))]; }
    assert r == params + Contribution(p, FlagField(Enhance)) + Contribution(p, FlagField(Private)) + Contribution(p, FlagField(NoLogo)) + Contribution(p, FlagField(NoFeed));
    if Safe in p.flags { r := r + [Param("safe", Text("true"))]; }
    assert r == params + Contribution(p, FlagField(Enhance)) + Contribution(p, FlagField(Private)) + Contribution(p, FlagField(NoLogo)) + Contribution(p, FlagField(NoFeed)) + Contribution(p, FlagField(Safe));
    if Transparent in p.flags { r := r + [Param("transparent", Text("true"))]; }
  }

  /** The position of a parameter name in the fixed order; 13 for a name that is not a field's. */
  function Rank(name: string): nat
  {
    if name == "model" then 0 else if name == "width" then 1 else if name == "height" then 2
    else if name == "seed" then 3 else if name == "guidance_scale" then 4
    else if name == "negative_prompt" then 5 else if name == "quality" then 6
    else if name == "enhance" then 7 else if name == "private" then 8
    else if name == "nologo" then 9 else if name == "nofeed" then 10
    else if name == "safe" then 11 else if name == "transparent" then 12
    else 13
  }

  /** Each field sits at the rank of its name in the fixed order. */
  lemma FieldInQueryOrder(f: Field)
    ensures Rank(FieldName(f)) < |QueryOrder| && QueryOrder[Rank(FieldName(f))] == f
  {
  }

  /** The field at position k of the fixed order has rank k. */
  lemma RankAt(k: nat)
    requires k < |QueryOrder|
    ensures Rank(FieldName(QueryOrder[k])) == k
  {
  }

  /** Every parameter of `s` comes from a truthy field among the first k, with that field's value. */
  ghost predicate FromTruthyFields(p: Payload, k: nat, s: seq<Param>)
    requires k <= |QueryOrder|
  {
    forall i :: 0 <= i < |s| ==>
      Rank(s[i].name) < k && FieldValue(p, QueryOrder[Rank(s[i].name)]) == Some(s[i].value)
  }

  /** The parameters of `s` follow the order of their fields, so no name appears twice. */
  ghost predicate InFieldOrder(s: seq<Param>)
  {
    forall i, j :: 0 <= i < j < |s| ==> Rank(s[i].name) < Rank(s[j].name)
  }

  /** Every truthy field among the first k is a parameter of `s`. */
  ghost predicate HasTruthyFields(p: Payload, k: nat, s: seq<Param>)
    requires k <= |QueryOrder|
  {
    forall m :: 0 <= m < k && FieldValue(p, QueryOrder[m]).Some? ==>
      Param(FieldName(QueryOrder[m]), FieldValue(p, QueryOrder[m]).value) in s
  }

  lemma {:induction false} SelectPrefixQuery(p: Payload, k: nat)
    requires k <= |QueryOrder|
    ensures var s := Select(p, QueryOrder[..k]);
      FromTruthyFields(p, k, s) && InFieldOrder(s) && HasTruthyFields(p, k, s)
  {
    if k == 0 {
      assert QueryOrder[..0] == [];
    } else {
      var before := Select(p, QueryOrder[..k - 1]);
      SelectPrefixQuery(p, k - 1);
      SelectPrefix(p, QueryOrder, k - 1);
      RankAt(k - 1);
      match FieldValue(p, QueryOrder[k - 1])
      case None =>
        SkipFieldQuery(p, k, before);
      case Some(v) =>
        AppendFieldQuery(p, k, before, Param(FieldName(QueryOrder[k - 1]), v));
    }
  }

  /** A falsy k-th field adds nothing, and the properties carry over from k - 1 to k. */
  lemma SkipFieldQuery(p: Payload, k: nat, before: seq<Param>)
    requires 0 < k <= |QueryOrder|
    requires FieldValue(p, QueryOrder[k - 1]).None?
    requires FromTruthyFields(p, k - 1, before) && HasTruthyFields(p, k - 1, before)
    ensures FromTruthyFields(p, k, before) && HasTruthyFields(p, k, before)
  {
    forall m | 0 <= m < k && FieldValue(p, QueryOrder[m]).Some?
      ensures Param(FieldName(QueryOrder[m]), FieldValue(p, QueryOrder[m]).value) in before
    {
      assert m < k - 1;
    }
  }

  /** Appending the pair of a truthy k-th field carries the properties over from k - 1 to k. */
  lemma AppendFieldQuery(p: Payload, k: nat, before: seq<Param>, q: Param)
    requires 0 < k <= |QueryOrder|
    requires q.name == FieldName(QueryOrder[k - 1]) && Rank(q.name) == k - 1
    requires FieldValue(p, QueryOrder[k - 1]) == Some(q.value)
    requires FromTruthyFields(p, k - 1, before) && InFieldOrder(before) && HasTruthyFields(p, k - 1, before)
    ensures var s := before + [q];
      FromTruthyFields(p, k, s) && InFieldOrder(s) && HasTruthyFields(p, k, s)
  {
    var s := before + [q];
    assert FromTruthyFields(p, k, s) by {
      forall i | 0 <= i < |s|
        ensures Rank(s[i].name) < k && FieldValue(p, QueryOrder[Rank(s[i].name)]) == Some(s[i].value)
      {
        if i < |before| { assert s[i] == before[i]; } else { assert s[i] == q; }
      }
    }
    assert InFieldOrder(s) by {
      forall i, j | 0 <= i < j < |s| ensures Rank(s[i].name) < Rank(s[j].name) {
        assert s[i] == before[i];
        if j == |before| { assert s[j] == q; } else { assert s[j] == before[j]; }
      }
    }
    assert HasTruthyFields(p, k, s) by {
      forall m | 0 <= m < k && FieldValue(p, QueryOrder[m]).Some?
        ensures Param(FieldName(QueryOrder[m]), FieldValue(p, QueryOrder[m]).value) in s
      {
        if m < k - 1 {
          assert Param(FieldName(QueryOrder[m]), FieldValue(p, QueryOrder[m]).value) in before;
        } else {
          assert s[|before|] == q;
        }
      }
    }
  }

  /**
   * The query `generateImage` sends, characterised: each parameter is a truthy
   * field's name with that field's value, the parameters follow the fixed order
   * model, width, height, seed, guidance_scale, negative_prompt, quality, enhance,
   * private, nologo, nofeed, safe, transparent with no name twice, and every truthy
   * field is there.
   */
  lemma QueryParamsCharacterised(p: Payload)
    ensures forall q :: q in QueryParams(p) ==>
      Rank(q.name) < |QueryOrder| && FieldValue(p, QueryOrder[Rank(q.name)]) == Some(q.value)
    ensures forall i, j :: 0 <= i < j < |QueryParams(p)| ==>
      Rank(QueryParams(p)[i].name) < Rank(QueryParams(p)[j].name)
    ensures forall f, v :: FieldValue(p, f) == Some(v) ==> Param(FieldName(f), v) in QueryParams(p)
  {
    SelectPrefixQuery(p, |QueryOrder|);
    assert QueryOrder[..|QueryOrder|] == QueryOrder;
    var s := QueryParams(p);
    assert FromTruthyFields(p, |QueryOrder|, s);
    forall q | q in s
      ensures Rank(q.name) < |QueryOrder| && FieldValue(p, QueryOrder[Rank(q.name)]) == Some(q.value)
    {
      var i :| 0 <= i < |s| && s[i] == q;
    }
    forall f, v | FieldValue(p, f) == Some(v) ensures Param(FieldName(f), v) in QueryParams(p) {
      FieldInQueryOrder(f);
    }
  }

  /** A truthy field is sent, with its value. */
  lemma TruthyFieldSent(p: Payload, f: Field)
    requires FieldValue(p, f).Some?
    ensures Param(FieldName(f), FieldValue(p, f).value) in QueryParams(p)
  {
    QueryParamsCharacterised(p);
  }

  /** A flag parameter is sent exactly when the flag is set, and always with the value "true". */
  lemma FlagsSendTrue(p: Payload, g: Flag, v: ParamValue)
    ensures Param(FieldName(FlagField(g)), v) in QueryParams(p) <==> g in p.flags && v == Text("true")
  {
    QueryParamsCharacterised(p);
    FieldInQueryOrder(FlagField(g));
    var q := Param(FieldName(FlagField(g)), v);
    if q in QueryParams(p) {
      assert QueryOrder[Rank(q.name)] == FlagField(g);
      assert FieldValue(p, FlagField(g)) == Some(v);
    }
    if g in p.flags && v == Text("true") {
      assert FieldValue(p, FlagField(g)) == Some(v);
    }
  }

  /**
   * A seed of 0 is falsy, so no `seed` parameter is sent even though the payload
   * holds the seed; any other seed is sent as is.
   */
  lemma SeedZeroOmitted(p: Payload)
    ensures p.seed == Some(0) ==> forall q :: q in QueryParams(p) ==> q.name != "seed"
    ensures p.seed.Some? && p.seed.value != 0 ==> Param("seed", Number(p.seed.value)) in QueryParams(p)
  {
    QueryParamsCharacterised(p);
    FieldInQueryOrder(SeedField);
    if p.seed.Some? && p.seed.value != 0 {
      assert FieldValue(p, SeedField) == Some(Number(p.seed.value));
    }
  }
}
