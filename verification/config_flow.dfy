/**
 * The configuration and options steps (config_flow.py): the API-key pattern,
 * the accept/reject decision of the options step, the data/options split of
 * the user step, and the numeric ranges of the form schemas.
 */
module ConfigFlow {
  import opened Wrappers

  const ConfApiKey: string := "api_key"
  const ConfName: string := "name"
  const ConfLatitude: string := "latitude"
  const ConfLongitude: string := "longitude"
  const ConfOrientation: string := "orientation"
  const ConfSlope: string := "slope"
  const ConfKwp: string := "kwp"

  const ApiKeyPrefix: string := "pvn_"
  const ApiKeyBodyLength: nat := 32
  const InvalidApiKey: string := "invalid_api_key"

  // ---------------------------------------------------------------------------
  // The API-key pattern `^pvn_[a-zA-Z0-9]{32}$`

  predicate IsAsciiAlnum(c: char) {
    'a' <= c <= 'z' || 'A' <= c <= 'Z' || '0' <= c <= '9'
  }

  /** Exactly 32 ASCII letters or digits. */
  predicate IsKeyBody(s: string) {
    |s| == ApiKeyBodyLength && forall i :: 0 <= i < |s| ==> IsAsciiAlnum(s[i])
  }

  /** Python's `$` at position `i`: the end of `s`, or just before a newline that ends `s`. */
  predicate DollarAt(s: string, i: nat) {
    i == |s| || (i + 1 == |s| && s[i] == '\n')
  }

  /**
   * `RE_API_KEY.match(s) is not None`: `match` and `^` anchor at the start;
   * then the literal prefix, exactly 32 characters of the class, and `$`.
   */
  predicate MatchesApiKey(s: string) {
    var p := |ApiKeyPrefix|;
    && |s| >= p + ApiKeyBodyLength
    && s[..p] == ApiKeyPrefix
    && IsKeyBody(s[p..p + ApiKeyBodyLength])
    && DollarAt(s, p + ApiKeyBodyLength)
  }

  /**
   * The pattern accepts exactly `pvn_` followed by 32 ASCII letters or
   * digits, optionally followed by one trailing newline.
   */
  lemma ApiKeyPattern(s: string)
    ensures MatchesApiKey(s) <==>
      exists body :: IsKeyBody(body) && (s == ApiKeyPrefix + body || s == ApiKeyPrefix + body + "\n")
  {
    var p := |ApiKeyPrefix|;
    if MatchesApiKey(s) {
      var body := s[p..p + ApiKeyBodyLength];
      if |s| == p + ApiKeyBodyLength {
        assert s == s[..p] + body;
      } else {
        assert s == s[..p] + body + [s[p + ApiKeyBodyLength]];
      }
    }
    if exists body :: IsKeyBody(body) && (s == ApiKeyPrefix + body || s == ApiKeyPrefix + body + "\n") {
      var body :| IsKeyBody(body) && (s == ApiKeyPrefix + body || s == ApiKeyPrefix + body + "\n");
      assert s[..p] == ApiKeyPrefix;
      assert s[p..p + ApiKeyBodyLength] == body;
    }
  }

  /** A key with two trailing newlines, or with anything else after the body, is rejected. */
  lemma ApiKeyOnlyOneNewline(body: string, extra: string)
    requires IsKeyBody(body) && extra != [] && extra != "\n"
    ensures !MatchesApiKey(ApiKeyPrefix + body + extra)
  {
    var s := ApiKeyPrefix + body + extra;
    var end := |ApiKeyPrefix| + ApiKeyBodyLength;
    assert |s| == end + |extra|;
    if |extra| == 1 {
      assert extra == [extra[0]];
      assert s[end] == extra[0] != '\n';
    }
    assert !DollarAt(s, end);
  }

  // ---------------------------------------------------------------------------
  // Submitted values and step results

  /** A submitted form value as the steps see it. */
  datatype Value = Text(s: string) | Int(i: int) | Float(r: real) | Null

  /** Python truthiness of a value. */
  predicate Truthy(v: Value) {
    match v
    case Text(s) => s != ""
    case Int(i) => i != 0
    case Float(r) => r != 0.0
    case Null => false
  }

  /**
   * What a step hands back to the host: the form again (with its step id and
   * errors), or a new entry. An options step passes its result as `data`,
   * which the host stores as the entry's options.
   */
  datatype FlowResult =
    | ShowForm(stepId: string, errors: map<string, string>)
    | CreateEntry(title: string, data: map<string, Value>, options: map<string, Value>)

  /** `user_input.get(CONF_API_KEY)` */
  function SubmittedKey(input: map<string, Value>): Value {
    if ConfApiKey in input then input[ConfApiKey] else Null
  }

  /** The options step's rejection test: a non-empty key that does not match the pattern. */
  predicate RejectsKey(key: Value) {
    key.Text? && key.s != "" && !MatchesApiKey(key.s)
  }

  // ---------------------------------------------------------------------------
  // Options step

  /**
   * `PVNodeOptionFlowHandler.async_step_init`. Without input the form is
   * shown with no errors. A non-empty key that fails the pattern re-shows the
   * form with `invalid_api_key` on the key field. Otherwise an entry is
   * created from the submitted fields, with the key stored as is when
   * non-empty and as `None` when empty or missing.
   */
  function StepInit(userInput: Option<map<string, Value>>): (r: FlowResult)
    requires userInput.Some? ==> SubmittedKey(userInput.value).Text? || SubmittedKey(userInput.value).Null?
    ensures userInput.None? ==> r == ShowForm("init", map[])
    ensures userInput.Some? && RejectsKey(SubmittedKey(userInput.value)) ==>
      r == ShowForm("init", map[ConfApiKey := InvalidApiKey])
    ensures userInput.Some? && !RejectsKey(SubmittedKey(userInput.value)) ==>
      && r.CreateEntry? && r.title == "" && r.options == map[]
      && r.data.Keys == userInput.value.Keys + {ConfApiKey}
      && (forall k :: k in userInput.value && k != ConfApiKey ==> r.data[k] == userInput.value[k])
      && r.data[ConfApiKey] == (if Truthy(SubmittedKey(userInput.value)) then SubmittedKey(userInput.value) else Null)
  {
    if userInput.None? then ShowForm("init", map[])
    else
      var key := SubmittedKey(userInput.value);
      if Truthy(key) && !MatchesApiKey(key.s) then ShowForm("init", map[ConfApiKey := InvalidApiKey])
      else CreateEntry("", userInput.value + map[ConfApiKey := if Truthy(key) then key else Null], map[])
  }

  /** A submitted key that matches the pattern leaves the submission unchanged. */
  lemma StepInitKeepsValidSubmission(input: map<string, Value>)
    requires SubmittedKey(input).Text? && MatchesApiKey(SubmittedKey(input).s)
    ensures StepInit(Some(input)) == CreateEntry("", input, map[])
  {
    assert input + map[ConfApiKey := input[ConfApiKey]] == input;
  }

  /** Submitting the options an accepted submission produced is accepted again and produces the same options. */
  lemma StepInitIdempotent(input: map<string, Value>)
    requires SubmittedKey(input).Text? || SubmittedKey(input).Null?
    requires StepInit(Some(input)).CreateEntry?
    ensures var data := StepInit(Some(input)).data;
            && (SubmittedKey(data).Text? || SubmittedKey(data).Null?)
            && StepInit(Some(data)) == StepInit(Some(input))
  {
    var data := StepInit(Some(input)).data;
    assert SubmittedKey(data) == data[ConfApiKey];
    assert data + map[ConfApiKey := data[ConfApiKey]] == data;
  }

  // ---------------------------------------------------------------------------
  // User step

  /** The keys the user step's schema makes every validated submission carry. */
  predicate HasUserFields(input: map<string, Value>) {
    && ConfName in input && input[ConfName].Text?
    && ConfLatitude in input && ConfLongitude in input
    && ConfOrientation in input && ConfSlope in input && ConfKwp in input
    && ConfApiKey in input
  }

  /**
   * `PVNodeFlowHandler.async_step_user`. Without input the form is shown.
   * With input an entry is always created, titled with the name: the location
   * goes to `data`, the panel geometry, capacity and key go to `options`, and
   * the key is not checked against the pattern.
   */
  function StepUser(userInput: Option<map<string, Value>>): (r: FlowResult)
    requires userInput.Some? ==> HasUserFields(userInput.value)
    ensures userInput.None? ==> r == ShowForm("user", map[])
    ensures userInput.Some? ==>
      && r.CreateEntry? && r.title == userInput.value[ConfName].s
      && r.data.Keys == {ConfLatitude, ConfLongitude}
      && r.options.Keys == {ConfOrientation, ConfSlope, ConfKwp, ConfApiKey}
      && (forall k :: k in r.data ==> r.data[k] == userInput.value[k])
      && (forall k :: k in r.options ==> r.options[k] == userInput.value[k])
  {
    if userInput.None? then ShowForm("user", map[])
    else
      var input := userInput.value;
      CreateEntry(
        input[ConfName].s,
        map[ConfLatitude := input[ConfLatitude], ConfLongitude := input[ConfLongitude]],
        map[ConfOrientation := input[ConfOrientation], ConfSlope := input[ConfSlope],
            ConfKwp := input[ConfKwp], ConfApiKey := input[ConfApiKey]])
  }

  /** A key the options step rejects is stored as is by the user step. */
  lemma UserStepSkipsKeyCheck(input: map<string, Value>)
    requires HasUserFields(input) && input[ConfApiKey].Text? && RejectsKey(input[ConfApiKey])
    ensures StepUser(Some(input)).CreateEntry? && StepUser(Some(input)).options[ConfApiKey] == input[ConfApiKey]
    ensures StepInit(Some(input)).ShowForm? && StepInit(Some(input)).errors == map[ConfApiKey := InvalidApiKey]
  {
  }

  // ---------------------------------------------------------------------------
  // Numeric fields: `vol.All(vol.Coerce(int), vol.Range(...))`

  /** A number submitted to a numeric field, before coercion. */
  datatype Number = IntNumber(i: int) | FloatNumber(r: real)

  /** `vol.Range`'s two failures, checked in this order. */
  datatype RangeError = BelowMinimum | AboveMaximum

  /** `int(n)`: floats are truncated toward zero. */
  function CoerceInt(n: Number): (v: int)
    ensures n.IntNumber? ==> v == n.i
    ensures n.FloatNumber? && n.r >= 0.0 ==> v as real <= n.r < v as real + 1.0
    ensures n.FloatNumber? && n.r < 0.0 ==> v as real - 1.0 < n.r <= v as real
  {
    match n
    case IntNumber(i) => i
    case FloatNumber(r) => if r >= 0.0 then r.Floor else -((-r).Floor)
  }

  /** `vol.Range(min=lo, max=hi)` after `vol.Coerce(int)`. */
  function CheckRange(n: Number, lo: int, hi: Option<int>): Result<int, RangeError> {
    var v := CoerceInt(n);
    if v < lo then Err(BelowMinimum)
    else if hi.Some? && v > hi.value then Err(AboveMaximum)
    else Ok(v)
  }

  /** The slope field accepts 0..90 after truncation, so floats strictly between -1 and 91. */
  function ValidateSlope(n: Number): (r: Result<int, RangeError>)
    ensures r.Ok? ==> r.value == CoerceInt(n) && 0 <= r.value <= 90
    ensures r.Ok? <==> match n
      case IntNumber(i) => 0 <= i <= 90
      case FloatNumber(x) => -1.0 < x < 91.0
  {
    CheckRange(n, 0, Some(90))
  }

  /** The orientation field accepts 0..360 after truncation, so floats strictly between -1 and 361. */
  function ValidateOrientation(n: Number): (r: Result<int, RangeError>)
    ensures r.Ok? ==> r.value == CoerceInt(n) && 0 <= r.value <= 360
    ensures r.Ok? <==> match n
      case IntNumber(i) => 0 <= i <= 360
      case FloatNumber(x) => -1.0 < x < 361.0
  {
    CheckRange(n, 0, Some(360))
  }

  /** The kWp field accepts any whole number from 1 up, so floats from 1.0 up, truncated. */
  function ValidateKwp(n: Number): (r: Result<int, RangeError>)
    ensures r.Ok? ==> r.value == CoerceInt(n) && r.value >= 1
    ensures r.Ok? <==> match n
      case IntNumber(i) => i >= 1
      case FloatNumber(x) => x >= 1.0
  {
    CheckRange(n, 1, None)
  }
}
