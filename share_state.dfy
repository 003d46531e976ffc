/**
 * The share-state codec (server/finops-core.js:948-1027): a normalised
 * snapshot of the UI context and the inputs, serialised as JSON and carried
 * as a URL-safe base64 token. JSON itself is a parameter: `Serialize` stands
 * for `JSON.stringify` followed by UTF-8 encoding, `Parse` for UTF-8 decoding
 * followed by `JSON.parse` (None when it throws).
 */
module ShareState {
  import opened Wrappers
  import opened JsValues
  import opened Canonicalizer
  import opened Base64

  /** SHARE_STATE_VERSION. */
  const ShareStateVersion: int := 1

  /** The payload a token carries. */
  datatype State = State(
    v: int,
    ui: string,
    um: string,
    i: map<string, string>,
    td: seq<string>,
    p: seq<string>,
    h: seq<string>)

  /** `String(x)` for a finite number. */
  type NumberFormatter = real -> string

  type Serialize = State -> seq<byte>
  type Parse = seq<byte> -> Option<Raw>

  // ---------------------------------------------------------------------------
  // String(value)
  // ---------------------------------------------------------------------------

  /** The size measure for the mutual recursion of `StringOf` and `JoinFrom`. */
  function Pending(v: Raw): nat {
    if v.Arr? then |v.items| + 1 else 0
  }

  /**
   * `String(value)`: strings as they are, numbers as the formatter writes
   * them, arrays joined by commas, plain objects as "[object Object]".
   */
  function StringOf(v: Raw, show: NumberFormatter): (r: string)
    ensures v.Arr? && |v.items| == 0 ==> r == ""
    ensures v.Arr? && |v.items| >= 2 ==> ',' in r
    decreases v, Pending(v)
  {
    match v
    case Undefined => "undefined"
    case Null => "null"
    case Bool(b) => if b then "true" else "false"
    case Num(x) => show(x)
    case NonFinite(kind) =>
      (match kind
       case NaN => "NaN"
       case PosInfinity => "Infinity"
       case NegInfinity => "-Infinity")
    case Str(s) => s
    case Arr(items) => JoinFrom(items, 0, v, show)
    case Obj(_) => "[object Object]"
  }

  /** `Array.prototype.join(",")` from index k on; null and undefined elements are empty. */
  function JoinFrom(items: seq<Raw>, k: nat, whole: Raw, show: NumberFormatter): (r: string)
    requires whole == Arr(items)
    ensures k >= |items| ==> r == ""
    ensures k + 1 < |items| ==> ',' in r
    decreases whole, |items| - k
  {
    if k >= |items| then ""
    else
      var x := items[k];
      var head := if x.Null? || x.Undefined? then "" else StringOf(x, show);
      if k + 1 == |items| then head
      else
        var rest := JoinFrom(items, k + 1, whole, show);
        assert (head + "," + rest)[|head|] == ',';
        head + "," + rest
  }

  /** The text the currency normaliser reads is `String(v)`, whatever the number formatter. */
  lemma {:induction false} CodeTextIsString(v: Raw, show: NumberFormatter)
    requires CodeText(v).Some?
    ensures CodeText(v).value == StringOf(v, show)
  {
    if v.Arr? {
      var x := v.items[0];
      assert JoinFrom(v.items, 0, v, show) == (if x.Null? || x.Undefined? then "" else StringOf(x, show));
      if !(x.Null? || x.Undefined?) {
        CodeTextIsString(x, show);
      }
    }
  }

  // ---------------------------------------------------------------------------
  // buildSerializedInputState
  // ---------------------------------------------------------------------------

  /**
   * What one entry of the input object contributes: nothing for the domain
   * list, a non-default currency code only, nothing for null, undefined or
   * "", else `String(value)`.
   */
  function SerializedValue(key: string, value: Raw, show: NumberFormatter): Option<string> {
    if key == "techDomains" then None
    else if key == "currency" then
      var code := NormalizeCurrencyCode(value);
      if code.None? || code.value == DefaultCurrencyCode then None else code
    else if value.Null? || value.Undefined? || value == Str("") then None
    else Some(StringOf(value, show))
  }

  /** The entries of `inputs` that are kept, as the loop below fills them. */
  function SerializedEntries(fields: map<string, Raw>, done: set<string>, show: NumberFormatter): map<string, string> {
    map k | k in fields && k in done && SerializedValue(k, fields[k], show).Some? :: SerializedValue(k, fields[k], show).value
  }

  /** The serialised input state of a raw value: nothing unless it is an object or an array. */
  function SerializedInputState(inputs: Raw, show: NumberFormatter): map<string, string> {
    if IsObject(inputs) then SerializedEntries(Entries(inputs), Entries(inputs).Keys, show) else map[]
  }

  /** `buildSerializedInputState`: one pass over `Object.entries(inputs)`. */
  method BuildSerializedInputState(inputs: Raw, show: NumberFormatter) returns (state: map<string, string>)
    ensures state == SerializedInputState(inputs, show)
  {
    if !IsObject(inputs) {
      return map[];
    }
    var fields := Entries(inputs);
    state := map[];
    var pending := fields.Keys;
    while pending != {}
      invariant pending <= fields.Keys
      invariant state == SerializedEntries(fields, fields.Keys - pending, show)
      decreases |pending|
    {
      var key :| key in pending;
      var value := fields[key];
      EntriesStep(fields, fields.Keys - pending, key, show);
      assert fields.Keys - (pending - {key}) == (fields.Keys - pending) + {key};
      pending := pending - {key};
      var entry := SerializedValue(key, value, show);
      if entry.Some? {
        state := state[key := entry.value];
      }
    }
    assert fields.Keys - pending == fields.Keys;
  }

  /** Handling one more key adds its entry, if it has one, and nothing else. */
  lemma EntriesStep(fields: map<string, Raw>, done: set<string>, key: string, show: NumberFormatter)
    requires key in fields && key !in done
    ensures var entry := SerializedValue(key, fields[key], show);
      SerializedEntries(fields, done + {key}, show) ==
        if entry.Some? then SerializedEntries(fields, done, show)[key := entry.value] else SerializedEntries(fields, done, show)
  {
  }

  /**
   * The serialised input state never holds the domain list, holds a currency
   * only when it is a supported code other than EUR, and an empty value only
   * for an array (whose join can be empty); every other present entry is kept
   * as `String(value)`.
   */
  lemma SerializedInputStateClean(inputs: Raw, show: NumberFormatter)
    requires forall x :: show(x) != ""
    ensures var state := SerializedInputState(inputs, show);
      && "techDomains" !in state
      && ("currency" in state ==> state["currency"] in CurrencyCodes && state["currency"] != DefaultCurrencyCode)
      && (forall k :: k in state ==> IsObject(inputs) && k in Entries(inputs))
      && (forall k :: k in state && state[k] == "" ==> Entries(inputs)[k].Arr?)
      && (IsObject(inputs) ==> forall k ::
            (k in Entries(inputs) && k != "techDomains" && k != "currency" && SerializedValue(k, Entries(inputs)[k], show).Some?)
            ==> k in state && state[k] == StringOf(Entries(inputs)[k], show))
  {
  }

  /** An array input is serialised item by item, each present item under its index. */
  lemma SerializedArrayItems(inputs: Raw, show: NumberFormatter)
    requires inputs.Arr?
    ensures var state := SerializedInputState(inputs, show);
      forall j :: 0 <= j < |inputs.items| ==>
        && (IndexKey(j) in state <==> SerializedValue(IndexKey(j), inputs.items[j], show).Some?)
        && (IndexKey(j) in state ==> state[IndexKey(j)] == StringOf(inputs.items[j], show))
  {
    forall j | 0 <= j < |inputs.items|
      ensures IndexKey(j) != "techDomains" && IndexKey(j) != "currency"
    {
      assert IndexKey(j)[0] != 't' && IndexKey(j)[0] != 'c';
    }
  }

  // ---------------------------------------------------------------------------
  // normalizeShareStatePayload
  // ---------------------------------------------------------------------------

  /** `normalizeTechDomains` as a value. */
  function DomainScopeOf(v: Raw): (r: seq<string>)
    ensures IsDomainScope(r)
  {
    KeepVocabularyDistinct(if v.Arr? then v.items else [], TechDomainKeys);
    if v.Arr? && |KeepVocabulary(v.items, TechDomainKeys)| > 0 then KeepVocabulary(v.items, TechDomainKeys)
    else DefaultTechDomains
  }

  /** `normalizeProviders` and `normalizeHiddenCurves` as values. */
  function VocabularyOf(v: Raw, vocab: seq<string>): (r: seq<string>)
    ensures IsVocabularyList(r, vocab)
  {
    if v.Arr? then
      KeepVocabularyDistinct(v.items, vocab);
      KeepVocabulary(v.items, vocab)
    else []
  }

  /** The input object of a payload: `i` when it is an object, else `inputs`, else empty. */
  function InputStateOf(payload: Raw): (r: Raw)
    ensures IsObject(r)
  {
    if IsObject(Get(payload, "i")) then Get(payload, "i")
    else if IsObject(Get(payload, "inputs")) then Get(payload, "inputs")
    else Obj(map[])
  }

  /** The normalised payload. */
  function NormalizedPayload(payload: Raw, show: NumberFormatter): State {
    State(
      ShareStateVersion,
      PickOption(Get(payload, "ui"), UiIntentOptions, UiIntentDefault),
      PickOption(Get(payload, "um"), UiModeOptions, UiModeDefault),
      SerializedInputState(InputStateOf(payload), show),
      DomainScopeOf(Get(payload, "td")),
      VocabularyOf(Get(payload, "p"), ProviderKeys),
      VocabularyOf(Get(payload, "h"), CurveKeys))
  }

  /** A payload as `normalizeShareStatePayload` returns it. */
  predicate WellFormed(s: State) {
    && s.v == ShareStateVersion
    && s.ui in UiIntentOptions
    && s.um in UiModeOptions
    && "techDomains" !in s.i
    && ("currency" in s.i ==> s.i["currency"] in CurrencyCodes && s.i["currency"] != DefaultCurrencyCode)
    && IsDomainScope(s.td)
    && IsVocabularyList(s.p, ProviderKeys)
    && IsVocabularyList(s.h, CurveKeys)
  }

  /** Every normalised payload is well formed. */
  lemma NormalizedPayloadWellFormed(payload: Raw, show: NumberFormatter)
    requires forall x :: show(x) != ""
    ensures WellFormed(NormalizedPayload(payload, show))
  {
    SerializedInputStateClean(InputStateOf(payload), show);
  }

  /** `normalizeShareStatePayload`. */
  method NormalizeShareStatePayload(payload: Raw, show: NumberFormatter) returns (s: State)
    ensures s == NormalizedPayload(payload, show)
  {
    var inputState := InputStateOf(payload);
    var i := BuildSerializedInputState(inputState, show);
    var td := NormalizeTechDomains(Get(payload, "td"));
    var p := NormalizeProviders(Get(payload, "p"));
    var h := NormalizeHiddenCurves(Get(payload, "h"));
    s := State(ShareStateVersion,
               PickOption(Get(payload, "ui"), UiIntentOptions, UiIntentDefault),
               PickOption(Get(payload, "um"), UiModeOptions, UiModeDefault),
               i, td, p, h);
  }

  // ---------------------------------------------------------------------------
  // The JSON view of a payload
  // ---------------------------------------------------------------------------

  function StrArray(xs: seq<string>): (r: Raw)
    ensures r.Arr? && |r.items| == |xs| && forall k :: 0 <= k < |xs| ==> r.items[k] == Str(xs[k])
  {
    Arr(seq(|xs|, k requires 0 <= k < |xs| => Str(xs[k])))
  }

  /** The value `JSON.parse(JSON.stringify(s))` gives back: an object with the seven keys. */
  function ToRaw(s: State): (r: Raw)
    ensures r.Obj?
    ensures Get(r, "v") == Num(s.v as real) && Get(r, "ui") == Str(s.ui) && Get(r, "um") == Str(s.um)
    ensures Get(r, "td") == StrArray(s.td) && Get(r, "p") == StrArray(s.p) && Get(r, "h") == StrArray(s.h)
    ensures Get(r, "i").Obj? && forall k :: Get(Get(r, "i"), k) == (if k in s.i then Str(s.i[k]) else Undefined)
  {
    Obj(map[
      "v" := Num(s.v as real),
      "ui" := Str(s.ui),
      "um" := Str(s.um),
      "i" := Obj(map k | k in s.i :: Str(s.i[k])),
      "td" := StrArray(s.td),
      "p" := StrArray(s.p),
      "h" := StrArray(s.h)])
  }

  /** JSON carries a payload faithfully. */
  ghost predicate Faithful(serialize: Serialize, parse: Parse) {
    forall s :: parse(serialize(s)) == Some(ToRaw(s)) && |serialize(s)| > 0
  }

  // ---------------------------------------------------------------------------
  // encodeShareState / decodeShareState
  // ---------------------------------------------------------------------------

  /** `encodeShareState`: serialise, then the URL-safe unpadded base64 of the bytes. */
  function EncodeShareState(s: State, serialize: Serialize): (token: string)
    ensures Avoids(token, '+') && Avoids(token, '/') && Avoids(token, '=')
  {
    TokenAlphabet(serialize(s));
    ToToken(serialize(s))
  }

  /**
   * `decodeShareState`: nothing for an empty token, one that does not
   * decode, text that does not parse, or a value that is not an object.
   */
  function DecodeShareState(token: string, parse: Parse): (r: Option<Raw>)
    ensures r.Some? ==> r.value.Obj? || r.value.Arr?
    ensures |token| == 0 ==> r.None?
  {
    if |token| == 0 then None
    else
      var bytes := FromToken(token);
      if bytes.None? then None
      else
        var parsed := parse(bytes.value);
        if parsed.Some? && IsObject(parsed.value) then parsed else None
  }

  /** A token of non-empty bytes is not empty. */
  lemma TokenNonEmpty(bs: seq<byte>)
    requires |bs| > 0
    ensures |ToToken(bs)| > 0
  {
    DigitsShape(bs);
  }

  /** Decoding an encoded payload gives back its JSON view. */
  lemma ShareStateRoundTrip(s: State, serialize: Serialize, parse: Parse)
    requires Faithful(serialize, parse)
    ensures DecodeShareState(EncodeShareState(s, serialize), parse) == Some(ToRaw(s))
  {
    var bytes := serialize(s);
    assert parse(bytes) == Some(ToRaw(s)) && |bytes| > 0;
    TokenNonEmpty(bytes);
    TokenRoundTrip(bytes);
  }

  // ---------------------------------------------------------------------------
  // The two tools
  // ---------------------------------------------------------------------------

  /** The payload `encodeStateTool` builds when no `state` object is given. */
  function PayloadOfArgs(args: Raw): Raw {
    var inputs := Get(args, "inputs");
    Obj(map[
      "ui" := Get(args, "uiIntent"),
      "um" := Get(args, "uiMode"),
      "i" := if IsObject(inputs) then inputs else Obj(map[]),
      "td" := if IsObject(inputs) then Get(inputs, "techDomains") else Undefined,
      "p" := Get(args, "providers"),
      "h" := Get(args, "hiddenCurves")])
  }

  /** The normalised payload `encodeStateTool` encodes: `state` when it is an object, else the loose arguments. */
  function ToolPayload(args: Raw, show: NumberFormatter): State {
    NormalizedPayload(if IsObject(Get(args, "state")) then Get(args, "state") else PayloadOfArgs(args), show)
  }

  /**
   * `encodeStateTool`: the token of the normalised payload; an empty token is
   * the error "Failed to encode state payload.".
   */
  method EncodeStateTool(args: Raw, show: NumberFormatter, serialize: Serialize) returns (r: Result<string, string>)
    ensures r.Success? <==> |serialize(ToolPayload(args, show))| > 0
    ensures r.Success? ==> r.value == EncodeShareState(ToolPayload(args, show), serialize)
  {
    var state;
    if IsObject(Get(args, "state")) {
      state := NormalizeShareStatePayload(Get(args, "state"), show);
    } else {
      state := NormalizeShareStatePayload(PayloadOfArgs(args), show);
    }
    var token := EncodeShareState(state, serialize);
    if |token| == 0 {
      if |serialize(state)| > 0 {
        TokenNonEmpty(serialize(state));
      }
      return Failure("Failed to encode state payload.");
    }
    r := Success(token);
  }

  /** `decodeStateTool`: a non-string token reads as ""; no state is "Invalid or corrupted state token.". */
  function DecodeStateTool(args: Raw, parse: Parse): (r: Result<Raw, string>)
    ensures r.Success? ==> r.value.Obj? || r.value.Arr?
    ensures !Get(args, "stateToken").Str? ==> r.Failure?
  {
    var token := if Get(args, "stateToken").Str? then Get(args, "stateToken").s else "";
    var state := DecodeShareState(token, parse);
    if state.None? then Failure("Invalid or corrupted state token.") else Success(state.value)
  }

  /**
   * What one tool encodes the other decodes: the decoded state is the
   * normalised payload, so its UI context, domain scope and providers are
   * the ones asked for, after normalisation.
   */
  lemma ToolRoundTrip(args: Raw, show: NumberFormatter, serialize: Serialize, parse: Parse)
    requires Faithful(serialize, parse)
    ensures var token := EncodeShareState(ToolPayload(args, show), serialize);
      DecodeStateTool(Obj(map["stateToken" := Str(token)]), parse) == Success(ToRaw(ToolPayload(args, show)))
  {
    ShareStateRoundTrip(ToolPayload(args, show), serialize, parse);
  }
}
