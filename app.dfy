/**
 * The application state of js/app.js and the operations on it that decide what
 * happens: storing and restoring the API key, building the generation request,
 * the checks the form submission makes before sending it, and the file name the
 * download link offers.
 */
module App {

  import opened Wrappers
  import opened JsStrings
  import opened Localization
  import opened Query
  import opened FormInput

  /** The `sessionStorage` key under which the API key is kept. */
  const ApiKeyStorageKey: string := "pollinations_api_key"

  /** JavaScript truthiness of `state.apiKey`: set and not the empty string. */
  predicate KeyIsTruthy(key: Option<string>)
  {
    key.Some? && key.value != ""
  }

  /** The key `loadApiKey` restores from the session: the trimmed saved value, unless it is blank. */
  function LoadedKey(session: map<string, string>): Option<string>
  {
    if ApiKeyStorageKey in session && !IsBlank(session[ApiKeyStorageKey])
    then Some(Trim(session[ApiKeyStorageKey]))
    else None
  }

  /** A key saved with `saveApiKey` is what a later `loadApiKey` restores. */
  lemma SaveThenLoad(session: map<string, string>, key: string)
    requires !IsBlank(key)
    ensures LoadedKey(session[ApiKeyStorageKey := Trim(key)]) == Some(Trim(key))
  {
    TrimIdempotent(key);
  }

  /** A restored key is trimmed and not empty; only a missing or blank saved value restores nothing. */
  lemma LoadedKeyIsTrimmed(session: map<string, string>)
    ensures LoadedKey(session).Some? ==> LoadedKey(session).value != "" && IsTrimmed(LoadedKey(session).value)
    ensures LoadedKey(session).None? <==> ApiKeyStorageKey !in session || AllWhitespace(session[ApiKeyStorageKey])
  {
  }

  /**
   * The request `generateImage` sends: the prompt of the endpoint path (before
   * `encodeURIComponent`), the query parameters in order, and the Authorization header.
   */
  datatype Request = Request(prompt: string, query: seq<Param>, authorization: string)

  /** The checks of the submit handler, in the order it makes them. */
  datatype Rejection = ApiKeyMissing | PromptMissing | ModelMissing | DimensionsMissing

  /** The translation key of the status message each rejection shows. */
  function RejectionKey(r: Rejection): string
  {
    match r
    case ApiKeyMissing => "apiKeyMissing"
    case PromptMissing => "statusPromptMissing"
    case ModelMissing => "statusModelMissing"
    case DimensionsMissing => "statusDimensionsMissing"
  }

  /** The position of each check in the submit handler. */
  function Position(r: Rejection): nat
  {
    match r
    case ApiKeyMissing => 0
    case PromptMissing => 1
    case ModelMissing => 2
    case DimensionsMissing => 3
  }

  /** Whether the check `r` fails for this key and payload. */
  predicate Fails(r: Rejection, key: Option<string>, p: Payload)
  {
    match r
    case ApiKeyMissing => !KeyIsTruthy(key)
    case PromptMissing => p.prompt == ""
    case ModelMissing => p.model == ""
    case DimensionsMissing => !NumberIsTruthy(p.width) || !NumberIsTruthy(p.height)
  }

  /**
   * The check that stops the submission, if any: the first failing one in the
   * handler's order. None means every check passes and the request is sent.
   */
  function FirstFailure(key: Option<string>, p: Payload): (r: Option<Rejection>)
    ensures r.Some? ==> Fails(r.value, key, p)
    ensures r.Some? ==> forall e :: Position(e) < Position(r.value) ==> !Fails(e, key, p)
    ensures r.None? <==> forall e :: !Fails(e, key, p)
  {
    if Fails(ApiKeyMissing, key, p) then Some(ApiKeyMissing)
    else if Fails(PromptMissing, key, p) then Some(PromptMissing)
    else if Fails(ModelMissing, key, p) then Some(ModelMissing)
    else if Fails(DimensionsMissing, key, p) then Some(DimensionsMissing)
    else None
  }

  /** The status message shown for a rejection, in the page's language. */
  function Message(r: Rejection): string
  {
    Default.T(RejectionKey(r))
  }

  /**
   * What a submission leads to: a failed check, a request, or an error thrown by
   * `generateImage`. Only the missing-key error is modelled, and the submit handler
   * has ruled it out before the call, so `Failed` does not arise; the network errors
   * it also stands for are not modelled.
   */
  datatype Outcome =
    | Rejected(reason: Rejection)
    | Sent(request: Request)
    | Failed(message: string)

  /** The status line after the submission: the rejection's message, the error, or cleared. */
  function StatusAfter(outcome: Outcome): string
  {
    match outcome
    case Rejected(r) => Message(r)
    case Sent(_) => ""
    case Failed(message) => message
  }

  /** `state.apiKey` after the key check of the submit handler has run `validateApiKey` when needed. */
  function KeyAfterValidation(apiKey: Option<string>, input: Option<string>): Option<string>
  {
    if !KeyIsTruthy(apiKey) && input.Some? && !IsBlank(input.value)
    then Some(Trim(input.value))
    else apiKey
  }

  /** The session storage after the same step. */
  function SessionAfterValidation(apiKey: Option<string>, session: map<string, string>, input: Option<string>)
    : map<string, string>
  {
    if !KeyIsTruthy(apiKey) && input.Some? && !IsBlank(input.value)
    then session[ApiKeyStorageKey := Trim(input.value)]
    else session
  }

  /** The outcome of submitting the form, given the key before the submission and the key input. */
  function SubmitOutcome(apiKey: Option<string>, input: Option<string>, form: Option<Form>): Outcome
  {
    Decide(KeyAfterValidation(apiKey, input), PayloadOf(form))
  }

  /** The checks on the key and the collected payload, and the request sent when they pass. */
  function Decide(key: Option<string>, p: Payload): Outcome
  {
    match FirstFailure(key, p)
    case Some(r) => Rejected(r)
    case None => Sent(Request(p.prompt, QueryParams(p), "Bearer " + key.value))
  }

  /**
   * With no usable key, neither stored nor typed, the submission stops at the key
   * check, whatever the form holds.
   */
  lemma SubmitWithoutKey(apiKey: Option<string>, input: Option<string>, form: Option<Form>)
    requires !KeyIsTruthy(apiKey)
    requires input.None? || IsBlank(input.value)
    ensures SubmitOutcome(apiKey, input, form) == Rejected(ApiKeyMissing)
    ensures StatusAfter(SubmitOutcome(apiKey, input, form)) == "Please enter your API key"
  {
    ApiKeyMissingMessage();
  }

  /** A key and a blank prompt: the submission stops at the prompt check. */
  lemma SubmitBlankPrompt(apiKey: Option<string>, input: Option<string>, f: Form)
    requires KeyIsTruthy(KeyAfterValidation(apiKey, input))
    requires f.prompt.None? || AllWhitespace(f.prompt.value)
    ensures SubmitOutcome(apiKey, input, Some(f)) == Rejected(PromptMissing)
    ensures StatusAfter(SubmitOutcome(apiKey, input, Some(f))) == "Please enter a prompt"
  {
    PromptMissingMessage();
  }

  /**
   * A request is sent only when every check passes; it carries the prompt, the
   * model, the width and the height, and the key in its Authorization header.
   */
  lemma DecideSent(key: Option<string>, p: Payload)
    requires Decide(key, p).Sent?
    ensures var q := Decide(key, p).request;
      && KeyIsTruthy(key) && q.authorization == "Bearer " + key.value
      && q.prompt == p.prompt != ""
      && Param("model", Text(p.model)) in q.query && p.model != ""
      && Param("width", Number(p.width.value)) in q.query && NumberIsTruthy(p.width)
      && Param("height", Number(p.height.value)) in q.query && NumberIsTruthy(p.height)
  {
    assert FirstFailure(key, p).None?;
    assert !Fails(DimensionsMissing, key, p);
    TruthyFieldSent(p, ModelField);
    TruthyFieldSent(p, WidthField);
    TruthyFieldSent(p, HeightField);
  }

  /**
   * On the form: a request is sent only with a prompt that is not blank, a model,
   * and a width and a height greater than 0, all of which reach the query.
   */
  lemma SubmittedRequest(apiKey: Option<string>, input: Option<string>, f: Form)
    requires SubmitOutcome(apiKey, input, Some(f)).Sent?
    ensures var q := SubmitOutcome(apiKey, input, Some(f)).request;
      && q.prompt == Trim(OrEmpty(f.prompt)) && q.prompt != "" && IsTrimmed(q.prompt)
      && f.model.Some? && Param("model", Text(f.model.value)) in q.query
      && f.width.Some? && f.width.value > 0 && Param("width", Number(f.width.value)) in q.query
      && f.height.Some? && f.height.value > 0 && Param("height", Number(f.height.value)) in q.query
  {
    var p := PayloadOf(Some(f));
    DecideSent(KeyAfterValidation(apiKey, input), p);
    PayloadNumbers(f);
  }

  /** The file extension `displayResult` takes from the content type: the subtype, or "png". */
  function DownloadExtension(contentType: string): (ext: string)
    ensures ext != "" && '/' !in ext && ';' !in ext
  {
    var parts := Split(contentType, '/');
    if |parts| < 2 then "png"
    else
      var e := Split(parts[1], ';')[0];
      if e == "" then "png" else e
  }

  /** The `download` attribute of the link: set only when the content type is a non-empty string. */
  function DownloadName(contentType: Option<string>): (name: Option<string>)
    ensures name.Some? <==> contentType.Some? && contentType.value != ""
    ensures name.Some? ==> name.value == "pollinations-image." + DownloadExtension(contentType.value)
  {
    if contentType.Some? && contentType.value != ""
    then Some("pollinations-image." + DownloadExtension(contentType.value))
    else None
  }

  /** A string without the separator splits into itself alone. */
  lemma SplitWithout(s: string, sep: char)
    requires sep !in s
    ensures Split(s, sep) == [s]
  {
    SplitPrefix(s, [], sep);
    assert s + [] == s;
  }

  /**
   * The first `;`-piece of a string that is empty or starts with `;` is empty.
   */
  lemma SplitLeadingSeparator(w: string, sep: char)
    requires w == [] || w[0] == sep
    ensures Split(w, sep)[0] == []
  {
  }

  /**
   * A content type `type/subtype` gives the subtype as the extension, whether it is
   * followed by `;` and parameters or by a further `/` and whatever comes after it.
   */
  lemma {:induction false} ExtensionOfMediaType(kind: string, subtype: string, rest: string)
    requires '/' !in kind
    requires subtype != "" && '/' !in subtype && ';' !in subtype
    requires rest == [] || rest[0] == ';' || rest[0] == '/'
    ensures DownloadExtension(kind + "/" + subtype + rest) == subtype
  {
    var tail := subtype + rest;
    assert kind + "/" + subtype + rest == kind + (['/'] + tail);
    SplitPrefix(kind, ['/'] + tail, '/');
    assert (['/'] + tail)[1..] == tail;
    assert Split(['/'] + tail, '/') == [[]] + Split(tail, '/');
    assert Split(kind + "/" + subtype + rest, '/')[1] == Split(tail, '/')[0];
    SplitPrefix(subtype, rest, '/');
    var w := Split(rest, '/')[0];
    assert w == [] || w[0] == ';' by {
      if rest != [] && rest[0] == ';' {
        assert w == [';'] + Split(rest[1..], '/')[0];
      }
    }
    SplitPrefix(subtype, w, ';');
    SplitLeadingSeparator(w, ';');
    assert subtype + [] == subtype;
  }

  /** An empty subtype, as in `image/` or `image/;charset=binary`, gives "png". */
  lemma {:induction false} ExtensionOfEmptySubtype(kind: string, rest: string)
    requires '/' !in kind
    requires rest == [] || rest[0] == ';' || rest[0] == '/'
    ensures DownloadExtension(kind + "/" + rest) == "png"
  {
    assert kind + "/" + rest == kind + (['/'] + rest);
    SplitPrefix(kind, ['/'] + rest, '/');
    assert (['/'] + rest)[1..] == rest;
    assert Split(['/'] + rest, '/') == [[]] + Split(rest, '/');
    var w := Split(rest, '/')[0];
    assert w == [] || w[0] == ';' by {
      if rest != [] && rest[0] == ';' {
        assert w == [';'] + Split(rest[1..], '/')[0];
      }
    }
    SplitLeadingSeparator(w, ';');
  }

  /** Without a `/`, there is no subtype and the extension is "png". */
  lemma ExtensionWithoutSlash(contentType: string)
    requires '/' !in contentType
    ensures DownloadExtension(contentType) == "png"
  {
    SplitWithout(contentType, '/');
  }

  /** The link offers the subtype of a `type/subtype` content type as the file extension. */
  lemma DownloadNameOfMediaType(kind: string, subtype: string, rest: string)
    requires '/' !in kind
    requires subtype != "" && '/' !in subtype && ';' !in subtype
    requires rest == [] || rest[0] == ';' || rest[0] == '/'
    ensures DownloadName(Some(kind + "/" + subtype + rest)) == Some("pollinations-image." + subtype)
  {
    ExtensionOfMediaType(kind, subtype, rest);
  }

  /** The `state` object: the API key in use and the session storage that keeps it. */
  class AppState {
    var apiKey: Option<string>
    var session: map<string, string>

    /** A key in use is never blank and never has surrounding whitespace. */
    ghost predicate Valid()
      reads this
    {
      apiKey.Some? ==> apiKey.value != "" && IsTrimmed(apiKey.value)
    }

    /** A fresh page: no key in use, and whatever the session already holds. */
    constructor(session: map<string, string>)
      ensures Valid()
      ensures apiKey == None && this.session == session
    {
      apiKey := None;
      this.session := session;
    }

    /** `loadApiKey`: restores a saved key that is not blank, trimmed, and reports whether it did. */
    method LoadApiKey() returns (ok: bool)
      requires Valid()
      modifies this
      ensures Valid()
      ensures session == old(session)
      ensures ok <==> LoadedKey(session).Some?
      ensures apiKey == if ok then LoadedKey(session) else old(apiKey)
    {
      if ApiKeyStorageKey in session {
        var saved := session[ApiKeyStorageKey];
        if saved != "" && Trim(saved) != "" {
          apiKey := Some(Trim(saved));
          return true;
        }
      }
      return false;
    }

    /** `saveApiKey`: a key that is not blank is trimmed, stored and put in use; a blank one is refused. */
    method SaveApiKey(key: string) returns (ok: bool)
      requires Valid()
      modifies this
      ensures Valid()
      ensures ok <==> !IsBlank(key)
      ensures ok ==> apiKey == Some(Trim(key)) && session == old(session)[ApiKeyStorageKey := Trim(key)]
      ensures !ok ==> apiKey == old(apiKey) && session == old(session)
    {
      if key == "" || Trim(key) == "" {
        return false;
      }
      var trimmedKey := Trim(key);
      session := session[ApiKeyStorageKey := trimmedKey];
      apiKey := Some(trimmedKey);
      return true;
    }

    /**
     * `validateApiKey` on the key input's value (None when the input is missing):
     * saves the trimmed value when it is not blank.
     */
    method ValidateApiKey(input: Option<string>) returns (ok: bool)
      requires Valid()
      modifies this
      ensures Valid()
      ensures ok <==> input.Some? && !IsBlank(input.value)
      ensures ok ==> apiKey == Some(Trim(input.value))
      ensures ok ==> session == old(session)[ApiKeyStorageKey := Trim(input.value)]
      ensures !ok ==> apiKey == old(apiKey) && session == old(session)
    {
      if input.None? {
        return false;
      }
      var key := Trim(input.value);
      if key != "" {
        TrimIdempotent(input.value);
        var _ := SaveApiKey(key);
        return true;
      }
      return false;
    }

    /**
     * The part of `generateImage` before the network call: refuses to run without a
     * key, otherwise builds the request from the payload.
     */
    method GenerateRequest(p: Payload) returns (r: Result<Request, string>)
      ensures r.Failure? <==> !KeyIsTruthy(apiKey)
      ensures r.Failure? ==> r.error == Message(ApiKeyMissing)
      ensures r.Success? ==> r.value == Request(p.prompt, QueryParams(p), "Bearer " + apiKey.value)
    {
      if apiKey.None? || apiKey.value == "" {
        return Failure(Message(ApiKeyMissing));
      }
      var params := BuildParams(p);
      return Success(Request(p.prompt, params, "Bearer " + apiKey.value));
    }

    /**
     * The key check that opens the submit handler: with no key in use, reads the key
     * input through `validateApiKey`; reports whether a key is in use afterwards.
     */
    method EnsureApiKey(input: Option<string>) returns (ok: bool)
      requires Valid()
      modifies this
      ensures Valid()
      ensures apiKey == KeyAfterValidation(old(apiKey), input)
      ensures session == SessionAfterValidation(old(apiKey), old(session), input)
      ensures ok <==> KeyIsTruthy(apiKey)
    {
      if !KeyIsTruthy(apiKey) {
        var _ := ValidateApiKey(input);
        if !KeyIsTruthy(apiKey) {
          return false;
        }
      }
      return true;
    }

    /**
     * The rest of the submit handler once a key is in use: checks prompt, model and
     * dimensions in that order and, when all pass, sends the request.
     */
    method SubmitPayload(payload: Payload) returns (outcome: Outcome)
      requires KeyIsTruthy(apiKey)
      ensures outcome == Decide(apiKey, payload)
    {
      if payload.prompt == "" {
        return Rejected(PromptMissing);
      }
      if payload.model == "" {
        return Rejected(ModelMissing);
      }
      if !NumberIsTruthy(payload.width) || !NumberIsTruthy(payload.height) {
        return Rejected(DimensionsMissing);
      }
      var r := GenerateRequest(payload);
      match r
      case Success(request) => outcome := Sent(request);
      case Failure(message) => outcome := Failed(message);
    }

    /**
     * The submit handler: makes sure there is a key, collects the payload, checks it
     * and sends the request; `status` is the status line it leaves.
     */
    method Submit(input: Option<string>, form: Option<Form>) returns (outcome: Outcome, status: string)
      requires Valid()
      modifies this
      ensures Valid()
      ensures apiKey == KeyAfterValidation(old(apiKey), input)
      ensures session == SessionAfterValidation(old(apiKey), old(session), input)
      ensures outcome == SubmitOutcome(old(apiKey), input, form)
      ensures status == StatusAfter(outcome)
    {
      var ok := EnsureApiKey(input);
      if !ok {
        outcome := Rejected(ApiKeyMissing);
      } else {
        var payload := CollectPayload(form);
        outcome := SubmitPayload(payload);
      }
      status := StatusAfter(outcome);
    }
  }
}
