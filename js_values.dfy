/**
 * The JavaScript values a tool call can carry, and the few coercions of the
 * language that the engine relies on (`Number(v)`, `Math.round`, `trim`,
 * case mapping). Number parsing of strings is not reimplemented: callers pass
 * it in as a `NumberParser`.
 */
module JsValues {
  import opened Wrappers

  /** Why a JavaScript number is not finite. */
  datatype NonFiniteKind = NaN | PosInfinity | NegInfinity

  /** An untrusted argument value, as JSON-RPC or HTTP hands it to the engine. */
  datatype Raw =
    | Undefined
    | Null
    | Bool(b: bool)
    | Num(x: real)                      // a finite number
    | NonFinite(kind: NonFiniteKind)
    | Str(s: string)
    | Arr(items: seq<Raw>)
    | Obj(fields: map<string, Raw>)

  /**
   * `Number(s)` for a non-empty string, restricted to finite results:
   * `Some(x)` when the text denotes the finite number x, `None` when it is NaN
   * or infinite.
   */
  type NumberParser = string -> Option<real>

  /**
   * Property access `o[key]`: missing keys, and any key of a value that is not
   * a plain object, read as undefined. The engine only reads named keys, never
   * an array index or `length`, so this is exact for arrays as well.
   */
  function Get(o: Raw, key: string): (r: Raw)
    ensures !o.Obj? ==> r == Undefined
    ensures o.Obj? && key !in o.fields ==> r == Undefined
  {
    if o.Obj? && key in o.fields then o.fields[key] else Undefined
  }

  /** `v && typeof v === "object"`: plain objects and arrays alike. */
  predicate IsObject(v: Raw) {
    v.Obj? || v.Arr?
  }

  /** The decimal digit of a value below ten. */
  function DigitChar(d: nat): (c: char)
    requires d < 10
    ensures '0' <= c <= '9' && c as int - '0' as int == d
  {
    ('0' as int + d) as char
  }

  /** The property key of array index n: its decimal numeral. */
  function IndexKey(n: nat): (r: string)
    ensures |r| >= 1 && (n >= 10 <==> |r| >= 2)
    ensures forall i :: 0 <= i < |r| ==> '0' <= r[i] <= '9'
  {
    if n < 10 then [DigitChar(n)] else IndexKey(n / 10) + [DigitChar(n % 10)]
  }

  /** Distinct indices have distinct keys. */
  lemma {:induction false} IndexKeyInjective(m: nat, n: nat)
    requires IndexKey(m) == IndexKey(n)
    ensures m == n
  {
    if m >= 10 && n >= 10 {
      var km, kn := IndexKey(m), IndexKey(n);
      assert km[|km| - 1] == DigitChar(m % 10) && kn[|kn| - 1] == DigitChar(n % 10);
      assert km[..|km| - 1] == IndexKey(m / 10) && kn[..|kn| - 1] == IndexKey(n / 10);
      IndexKeyInjective(m / 10, n / 10);
    } else if m < 10 && n < 10 {
      assert IndexKey(m)[0] == DigitChar(m);
    }
  }

  /** The keyed entries of the first n array items, as `Object.entries` lists them. */
  function IndexEntries(items: seq<Raw>, n: nat): map<string, Raw>
    requires n <= |items|
  {
    if n == 0 then map[] else IndexEntries(items, n - 1)[IndexKey(n - 1) := items[n - 1]]
  }

  /** Only index keys are present. */
  lemma {:induction false} IndexEntriesKeys(items: seq<Raw>, n: nat)
    requires n <= |items|
    ensures forall k :: k in IndexEntries(items, n) ==> exists j :: 0 <= j < n && IndexKey(j) == k
  {
    if n > 0 {
      IndexEntriesKeys(items, n - 1);
      var prev := IndexEntries(items, n - 1);
      assert IndexEntries(items, n) == prev[IndexKey(n - 1) := items[n - 1]];
      forall k | k in IndexEntries(items, n)
        ensures exists j :: 0 <= j < n && IndexKey(j) == k
      {
        if k != IndexKey(n - 1) {
          assert k in prev;
          var j :| 0 <= j < n - 1 && IndexKey(j) == k;
          assert 0 <= j < n;
        } else {
          var j: nat := n - 1;
          assert 0 <= j < n && IndexKey(j) == k;
        }
      }
      assert forall k :: k in IndexEntries(items, n) ==> exists j :: 0 <= j < n && IndexKey(j) == k;
    }
  }

  /** Every item sits under its own index key. */
  lemma {:induction false} IndexEntriesValues(items: seq<Raw>, n: nat)
    requires n <= |items|
    ensures forall j :: 0 <= j < n ==> IndexKey(j) in IndexEntries(items, n) && IndexEntries(items, n)[IndexKey(j)] == items[j]
  {
    if n > 0 {
      IndexEntriesValues(items, n - 1);
      forall j | 0 <= j < n - 1
        ensures IndexKey(j) != IndexKey(n - 1)
      {
        if IndexKey(j) == IndexKey(n - 1) {
          IndexKeyInjective(j, n - 1);
        }
      }
      assert IndexEntries(items, n) == IndexEntries(items, n - 1)[IndexKey(n - 1) := items[n - 1]];
    }
  }

  /** `Object.entries(v)` as a map: an object's own fields, an array's items keyed by index, else nothing. */
  function Entries(v: Raw): (r: map<string, Raw>)
    ensures v.Obj? ==> r == v.fields
    ensures v.Arr? ==> forall j :: 0 <= j < |v.items| ==> IndexKey(j) in r && r[IndexKey(j)] == v.items[j]
    ensures v.Arr? ==> forall k :: k in r ==> exists j :: 0 <= j < |v.items| && IndexKey(j) == k
    ensures !IsObject(v) ==> r == map[]
  {
    match v
    case Obj(fields) => fields
    case Arr(items) =>
      IndexEntriesKeys(items, |items|);
      IndexEntriesValues(items, |items|);
      IndexEntries(items, |items|)
    case _ => map[]
  }

  /**
   * `toNumber` (server/finops-core.js:98-102): null, undefined and "" are
   * absent; otherwise `Number(v)`, kept only when finite.
   */
  function ToNumber(v: Raw, parse: NumberParser): (r: Option<real>)
    ensures v.Undefined? || v.Null? || v == Str("") || v.NonFinite? ==> r == None
    ensures v.Num? ==> r == Some(v.x)
  {
    match v
    case Undefined => None
    case Null => None
    case Bool(b) => Some(if b then 1.0 else 0.0)
    case Num(x) => Some(x)
    case NonFinite(_) => None
    case Str(s) => if s == "" then None else parse(s)
    case Arr(_) => None
    case Obj(_) => None
  }

  /** `Math.round`: the nearest integer, halves rounded up. */
  function Round(x: real): (r: int)
    ensures x - 0.5 < r as real <= x + 0.5
  {
    (x + 0.5).Floor
  }

  predicate IsInteger(x: real) {
    x == x.Floor as real
  }

  /** The characters `String.prototype.trim` removes (white space and line terminators). */
  predicate IsJsWhitespace(c: char) {
    var k := c as int;
    (9 <= k <= 13) || k == 0x20 || k == 0xA0 || k == 0x1680 || (0x2000 <= k <= 0x200A) ||
    k == 0x2028 || k == 0x2029 || k == 0x202F || k == 0x205F || k == 0x3000 || k == 0xFEFF
  }

  function TrimStart(s: string): (r: string)
    ensures |r| <= |s|
    ensures r == s[|s| - |r|..]
    ensures r == [] || !IsJsWhitespace(r[0])
  {
    if |s| > 0 && IsJsWhitespace(s[0]) then TrimStart(s[1..]) else s
  }

  function TrimEnd(s: string): (r: string)
    ensures |r| <= |s|
    ensures r == s[..|r|]
    ensures r == [] || !IsJsWhitespace(r[|r| - 1])
  {
    if |s| > 0 && IsJsWhitespace(s[|s| - 1]) then TrimEnd(s[..|s| - 1]) else s
  }

  /** `String.prototype.trim`. */
  function Trim(s: string): string {
    TrimEnd(TrimStart(s))
  }

  /**
   * `toLowerCase` as far as comparisons with ASCII words go: ASCII capitals are
   * lowered; no other character lowers to an ASCII letter, digit or space
   * except the Kelvin sign, which the words compared against here do not use.
   */
  function LowerAscii(s: string): (r: string)
    ensures |r| == |s|
    ensures forall i :: 0 <= i < |s| ==> r[i] == (if 'A' <= s[i] <= 'Z' then (s[i] as int + 32) as char else s[i])
  {
    if s == [] then []
    else [if 'A' <= s[0] <= 'Z' then (s[0] as int + 32) as char else s[0]] + LowerAscii(s[1..])
  }

  /**
   * `toUpperCase` as far as comparisons with ASCII capitals go: ASCII small
   * letters are raised, and so is the long s (U+017F), which JavaScript
   * upper-cases to "S".
   */
  function UpperAscii(s: string): (r: string)
    ensures |r| == |s|
    ensures forall i :: 0 <= i < |s| ==>
      r[i] == (if 'a' <= s[i] <= 'z' then (s[i] as int - 32) as char else if s[i] == '\U{017F}' then 'S' else s[i])
  {
    if s == [] then []
    else
      var c := s[0];
      [if 'a' <= c <= 'z' then (c as int - 32) as char else if c == '\U{017F}' then 'S' else c] + UpperAscii(s[1..])
  }
}
