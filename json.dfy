/** JSON values as the server's handlers see them after `JSON.parse`, with the three
    pieces of JavaScript semantics the handlers rely on: truthiness (`!x`), conversion
    to text inside a template string, and the own properties an object spread copies. */
module JsValue {
  import opened Wrappers
  import opened Text

  datatype Json =
    | Null
    | Bool(b: bool)
    | Num(n: int)
    | Str(s: string)
    | Arr(items: seq<Json>)
    | Obj(fields: map<string, Json>)

  /** JavaScript truthiness: `null`, `false`, `0` and `""` are falsy, everything else truthy. */
  predicate Truthy(v: Json) {
    match v
    case Null => false
    case Bool(b) => b
    case Num(n) => n != 0
    case Str(s) => s != ""
    case Arr(_) => true
    case Obj(_) => true
  }

  /** A field that may be absent (`undefined`) is given when it is present and truthy. */
  predicate Given(f: Option<Json>) {
    f.Some? && Truthy(f.value)
  }

  /** The property `key` of a request body or object; `None` is `undefined`. */
  function Field(fields: map<string, Json>, key: string): (f: Option<Json>)
    ensures f.Some? <==> key in fields
    ensures f.Some? ==> f.value == fields[key]
  {
    if key in fields then Some(fields[key]) else None
  }

  /** Whether `String(v)` returns rather than throws. Converting an object calls its
      `toString`; an object that carries a `toString` property of its own has, coming from
      JSON, no callable one (and `valueOf` gives back the object), so the conversion
      throws a TypeError. An array converts each element through `join`. */
  predicate Convertible(v: Json)
    decreases v
  {
    match v
    case Obj(fields) => "toString" !in fields
    case Arr(items) => forall i :: 0 <= i < |items| ==> Convertible(items[i])
    case _ => true
  }

  /** `String(v)`, the text a template literal inserts for `${v}`, when it does not throw. */
  function ToText(v: Json): (text: string)
    requires Convertible(v)
    ensures v.Str? ==> text == v.s
    ensures v.Obj? ==> text == "[object Object]"
    ensures v.Arr? && |v.items| == 0 ==> text == ""
    decreases v
  {
    match v
    case Null => "null"
    case Bool(b) => if b then "true" else "false"
    case Num(n) => Decimal(n)
    case Str(s) => s
    case Arr(items) =>
      JoinWithCommas(seq(|items|, i requires 0 <= i < |items| =>
        if items[i].Null? then "" else ToText(items[i])))
    case Obj(_) => "[object Object]"
  }

  /** A one-element array converts to its element's text (`String([x]) == String(x)`). */
  lemma ToTextSingleton(x: Json)
    requires Convertible(x) && !x.Null?
    ensures Convertible(Arr([x])) && ToText(Arr([x])) == ToText(x)
  {
    var parts := seq(1, i requires 0 <= i < 1 => if [x][i].Null? then "" else ToText([x][i]));
    assert parts == [ToText(x)];
  }

  /** An array of strings converts to the strings joined with commas. */
  lemma ToTextOfStrings(xs: seq<string>)
    ensures Convertible(Strings(xs)) && ToText(Strings(xs)) == JoinWithCommas(xs)
  {
    var v := Strings(xs);
    var parts := seq(|v.items|, i requires 0 <= i < |v.items| => if v.items[i].Null? then "" else ToText(v.items[i]));
    assert parts == xs;
  }

  /** `Array.prototype.join` with its default separator. */
  function JoinWithCommas(parts: seq<string>): string {
    if |parts| == 0 then ""
    else if |parts| == 1 then parts[0]
    else parts[0] + "," + JoinWithCommas(parts[1..])
  }

  /** The own enumerable properties that `{ ...v }` copies: an object's fields, the
      indices of an array or of a string, and nothing for `null`, booleans and numbers. */
  function SpreadEntries(v: Json): (entries: map<string, Json>)
    ensures v.Obj? ==> entries == v.fields
    ensures v.Null? || v.Bool? || v.Num? ==> entries == map[]
    ensures v.Arr? ==> forall k :: k in entries <==> IsIndexKey(k, 0, |v.items|)
    ensures v.Arr? ==> forall i :: 0 <= i < |v.items| ==> Digits(i) in entries && entries[Digits(i)] == v.items[i]
    ensures v.Str? ==> forall k :: k in entries <==> IsIndexKey(k, 0, |v.s|)
    ensures v.Str? ==> forall i :: 0 <= i < |v.s| ==> Digits(i) in entries && entries[Digits(i)] == Str([v.s[i]])
  {
    match v
    case Obj(fields) => fields
    case Arr(items) => IndexKeyed(items, 0)
    case Str(s) =>
      var chars := seq(|s|, i requires 0 <= i < |s| => Str([s[i]]));
      assert |chars| == |s| && forall i :: 0 <= i < |s| ==> chars[i] == Str([s[i]]);
      IndexKeyed(chars, 0)
    case _ => map[]
  }

  /** `k` is the decimal name of an index in `[from, n)`. */
  predicate IsIndexKey(k: string, from: nat, n: nat) {
    && (forall i :: 0 <= i < |k| ==> IsDigit(k[i]))
    && from <= DigitsValue(k) < n
    && k == Digits(DigitsValue(k))
  }

  /** The elements from index `from` on, each under its index written in decimal. */
  function IndexKeyed(items: seq<Json>, from: nat): (m: map<string, Json>)
    ensures forall k :: k in m <==> IsIndexKey(k, from, |items|)
    ensures forall i :: from <= i < |items| ==> Digits(i) in m && m[Digits(i)] == items[i]
    decreases |items| - from
  {
    if from >= |items| then map[]
    else
      var rest := IndexKeyed(items, from + 1);
      IndexKeySplit(from, |items|);
      rest[Digits(from) := items[from]]
  }

  /** The index names from `from` on are the name of `from` and those from `from + 1` on,
      and no name from `from + 1` on is the name of `from`. */
  lemma IndexKeySplit(from: nat, n: nat)
    requires from < n
    ensures forall k :: IsIndexKey(k, from, n) <==> k == Digits(from) || IsIndexKey(k, from + 1, n)
    ensures forall i :: from < i < n ==> Digits(i) != Digits(from)
  {
    DigitsRoundTrip(from);
    forall i | from < i < n ensures Digits(i) != Digits(from) {
      DigitsRoundTrip(i);
    }
  }

  /** A JSON array of strings. */
  function Strings(xs: seq<string>): (v: Json)
    ensures v.Arr? && |v.items| == |xs|
    ensures forall i :: 0 <= i < |xs| ==> v.items[i] == Str(xs[i])
  {
    Arr(seq(|xs|, i requires 0 <= i < |xs| => Str(xs[i])))
  }
}
