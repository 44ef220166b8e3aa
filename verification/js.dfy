/** JavaScript values as the handlers and pages see them after `JSON.parse`, with the few
    language rules every fallback chain depends on: truthiness, property access, `a || b`,
    `String(v)` and `new Date(v)`. */
module Js {
  import opened Wrappers
  import opened Text
  import opened Seqs

  /** A JSON-shaped JavaScript value. Object fields keep their insertion order, which is the
      order `Object.keys` reports, and their names are distinct, as in every `JSON.parse`
      result; lemmas that rely on this say so with `NoDuplicates(Keys(v))`. Numbers are finite:
      JSON cannot carry NaN or Infinity. */
  datatype Value =
    | Undefined
    | Null
    | Bool(b: bool)
    | Num(n: real)
    | Str(s: string)
    | Arr(items: seq<Value>)
    | Obj(fields: seq<(string, Value)>)

  /** Host-library behaviour the model leaves abstract: `Date` parsing (milliseconds since the
      epoch, `None` for an invalid date), `TimeClip` of a number, `Intl.DateTimeFormat('de-DE',
      {day: 'numeric', month: 'long', year: 'numeric'}).format` (`None` when it throws),
      `setHours(0, 0, 0, 0)` in local time, and printing of numbers that are not small integers. */
  datatype Host = Host(
    parseDate: string -> Option<int>,
    timeClip: real -> Option<int>,
    formatDe: int -> Option<string>,
    startOfDay: int -> int,
    numberToString: real -> string)

  /** JavaScript truthiness: `undefined`, `null`, `false`, `0` and `''` are falsy. */
  predicate Truthy(v: Value) {
    match v
    case Undefined => false
    case Null => false
    case Bool(b) => b
    case Num(n) => n != 0.0
    case Str(s) => |s| > 0
    case Arr(_) => true
    case Obj(_) => true
  }

  /** `typeof v === 'object' && v !== null`. */
  predicate IsObjectLike(v: Value) {
    v.Arr? || v.Obj?
  }

  /** Position of the first field named `key`. */
  function KeyIndex(fields: seq<(string, Value)>, key: string): (r: Option<nat>)
    ensures r.Some? ==> r.value < |fields| && fields[r.value].0 == key
    ensures r.Some? ==> forall j :: 0 <= j < r.value ==> fields[j].0 != key
    ensures r.None? ==> forall j :: 0 <= j < |fields| ==> fields[j].0 != key
  {
    if |fields| == 0 then None
    else if fields[0].0 == key then Some(0)
    else
      match KeyIndex(fields[1..], key)
      case Some(i) => Some(i + 1)
      case None => None
  }

  /** `v[key]` for a field name: objects answer with the field's value, every other value with
      `undefined`. The fallback chains only ever name fields that are neither array indices nor
      `length`, for which arrays and strings answer `undefined` too; `Elem` is the general
      access. */
  function Prop(v: Value, key: string): Value {
    if v.Obj? then
      match KeyIndex(v.fields, key)
      case Some(i) => v.fields[i].1
      case None => Undefined
    else Undefined
  }

  /** The array index `key` names below `n`: the position whose decimal form `key` is. */
  function IndexNamed(n: nat, key: string): (r: Option<nat>)
    ensures r.Some? ==> r.value < n && NatToStr(r.value) == key
    ensures r.None? ==> forall i :: 0 <= i < n ==> NatToStr(i) != key
  {
    if n == 0 then None
    else
      match IndexNamed(n - 1, key)
      case Some(i) => Some(i)
      case None => if NatToStr(n - 1) == key then Some(n - 1) else None
  }

  /** `v[key]` in general: an object's field; an array's element or a string's character at
      the index `key` spells, and their `length`; `undefined` otherwise. */
  function Elem(v: Value, key: string): (r: Value)
    ensures v.Obj? ==> r == Prop(v, key)
    ensures v.Arr? && IndexNamed(|v.items|, key).Some? ==> r == v.items[IndexNamed(|v.items|, key).value]
    ensures v.Str? && IndexNamed(|v.s|, key).Some? ==> r == Str([v.s[IndexNamed(|v.s|, key).value]])
    ensures v.Arr? && key == "length" ==> r == Num(|v.items| as real)
    ensures v.Str? && key == "length" ==> r == Num(|v.s| as real)
    ensures !IsObjectLike(v) && !v.Str? ==> r == Undefined
  {
    match v
    case Obj(_) => Prop(v, key)
    case Arr(items) =>
      (match IndexNamed(|items|, key)
       case Some(i) => items[i]
       case None => if key == "length" then Num(|items| as real) else Undefined)
    case Str(s) =>
      (match IndexNamed(|s|, key)
       case Some(i) => Str([s[i]])
       case None => if key == "length" then Num(|s| as real) else Undefined)
    case _ => Undefined
  }

  /** A name that does not start with a digit (`length`, `Logo`, ...) is no array index. */
  lemma NoIndexName(n: nat, key: string)
    requires |key| > 0 && !IsDigit(key[0])
    ensures IndexNamed(n, key).None?
  {
    forall i | 0 <= i < n
      ensures NatToStr(i) != key
    {
      assert IsDigit(NatToStr(i)[0]);
    }
  }

  /** `Object.keys(v)`: an object's field names; an array's or a string's indices in decimal;
      nothing for other values. */
  function Keys(v: Value): (r: seq<string>)
    ensures v.Obj? ==> |r| == |v.fields|
    ensures v.Arr? ==> |r| == |v.items|
    ensures v.Str? ==> |r| == |v.s|
    ensures !IsObjectLike(v) && !v.Str? ==> r == []
  {
    match v
    case Obj(fields) => seq(|fields|, i requires 0 <= i < |fields| => fields[i].0)
    case Arr(items) => seq(|items|, i requires 0 <= i < |items| => NatToStr(i))
    case Str(s) => seq(|s|, i requires 0 <= i < |s| => NatToStr(i))
    case _ => []
  }

  /** `for (const k of Object.keys(v)) ... v[k]` visits every element of an array or string in
      order, and every field of an object (whose names are distinct) in order. */
  lemma KeysVisitEntries(v: Value)
    ensures v.Arr? ==> forall i :: 0 <= i < |v.items| ==> Elem(v, Keys(v)[i]) == v.items[i]
    ensures v.Str? ==> forall i :: 0 <= i < |v.s| ==> Elem(v, Keys(v)[i]) == Str([v.s[i]])
    ensures v.Obj? && NoDuplicates(Keys(v)) ==>
      forall i :: 0 <= i < |v.fields| ==> Keys(v)[i] == v.fields[i].0 && Elem(v, Keys(v)[i]) == v.fields[i].1
  {
    var n := |Keys(v)|;
    forall i | 0 <= i < n && (v.Arr? || v.Str?)
      ensures IndexNamed(n, Keys(v)[i]) == Some(i)
    {
      var j := IndexNamed(n, NatToStr(i));
      NatToStrInjective(j.value, i);
    }
    if v.Obj? && NoDuplicates(Keys(v)) {
      forall i | 0 <= i < n
        ensures Keys(v)[i] == v.fields[i].0 && KeyIndex(v.fields, Keys(v)[i]) == Some(i)
      {
        var k := KeyIndex(v.fields, Keys(v)[i]).value;
        assert Keys(v)[k] == v.fields[k].0;
      }
    }
  }

  /** `v && v.length > 0` for a value of unknown shape: arrays and strings by their length,
      objects by a numeric `length` field; everything else has none. */
  predicate HasLength(v: Value) {
    (v.Arr? && |v.items| > 0) || (v.Str? && |v.s| > 0)
    || (v.Obj? && Prop(v, "length").Num? && Prop(v, "length").n > 0.0)
  }

  /** `HasLength` is the test `v && v.length > 0` read through `Elem`, for numeric lengths. */
  lemma HasLengthIsLengthTest(v: Value)
    ensures HasLength(v) <==> Truthy(v) && Elem(v, "length").Num? && Elem(v, "length").n > 0.0
  {
    if v.Arr? {
      NoIndexName(|v.items|, "length");
    } else if v.Str? {
      NoIndexName(|v.s|, "length");
    }
  }

  /** The values of the fields named `keys`, in that order. */
  function Props(f: Value, keys: seq<string>): (r: seq<Value>)
    ensures |r| == |keys| && forall i :: 0 <= i < |keys| ==> r[i] == Prop(f, keys[i])
  {
    seq(|keys|, i requires 0 <= i < |keys| => Prop(f, keys[i]))
  }

  /** Reference definition of a fallback chain: the position of the first truthy value. */
  function FirstTruthy(vs: seq<Value>): (r: Option<nat>)
    ensures r.Some? ==> r.value < |vs| && Truthy(vs[r.value])
    ensures r.Some? ==> forall j :: 0 <= j < r.value ==> !Truthy(vs[j])
    ensures r.None? ==> forall j :: 0 <= j < |vs| ==> !Truthy(vs[j])
  {
    if |vs| == 0 then None
    else if Truthy(vs[0]) then Some(0)
    else
      match FirstTruthy(vs[1..])
      case Some(i) => Some(i + 1)
      case None => None
  }

  /** `a || b`. */
  function Or(a: Value, b: Value): Value {
    if Truthy(a) then a else b
  }

  /** `vs[0] || vs[1] || ... || d`, evaluated left to right as JavaScript does: the first truthy
      value of the chain, or the last operand `d` (truthy or not) when none is. */
  function OrChain(vs: seq<Value>, d: Value): (r: Value)
    ensures FirstTruthy(vs).Some? ==> r == vs[FirstTruthy(vs).value]
    ensures FirstTruthy(vs).None? ==> r == d
  {
    if |vs| == 0 then d else Or(vs[0], OrChain(vs[1..], d))
  }

  /** `f[keys[0]] || f[keys[1]] || ... || d`. */
  function PickField(f: Value, keys: seq<string>, d: Value): (r: Value)
    ensures FirstTruthy(Props(f, keys)).Some? ==> r == Prop(f, keys[FirstTruthy(Props(f, keys)).value])
    ensures FirstTruthy(Props(f, keys)).None? ==> r == d
  {
    OrChain(Props(f, keys), d)
  }

  /** `v === undefined || v === null`. */
  predicate IsNullish(v: Value) {
    v.Undefined? || v.Null?
  }

  /** `v?.k1?.k2...`: field access through optional chaining. A value that is not an object
      anywhere along the way gives `undefined`. */
  function Path(v: Value, keys: seq<string>): Value
    decreases |keys|
  {
    if |keys| == 0 then v else Path(Prop(v, keys[0]), keys[1..])
  }

  /** `v.k1 && v.k1.k2 && ... && v.k1...kn` written out with `&&`: stops at the first falsy link
      and yields it. It agrees with the optional chain `Path` on truthiness and, when truthy,
      on the value, which is all that the `||` chains and `if` tests around it look at. */
  function AndPath(v: Value, keys: seq<string>): (r: Value)
    requires |keys| > 0
    ensures Truthy(r) <==> Truthy(Path(v, keys))
    ensures Truthy(r) ==> r == Path(v, keys)
  {
    var w := Prop(v, keys[0]);
    if |keys| == 1 then w
    else if !Truthy(w) then (FalsyPath(w, keys[1..]); w)
    else AndPath(w, keys[1..])
  }

  /** Optional chaining from a falsy value ends in a falsy value (`undefined` after one step). */
  lemma {:induction false} FalsyPath(v: Value, keys: seq<string>)
    requires !Truthy(v)
    ensures !Truthy(Path(v, keys))
    ensures |keys| > 0 ==> Path(v, keys) == Undefined
    decreases |keys|
  {
    if |keys| > 0 {
      FalsyPath(Prop(v, keys[0]), keys[1..]);
    }
  }

  /** What `extract` makes of each listed field of `f`. */
  function Hits(f: Value, keys: seq<string>, extract: Value -> Value): (r: seq<Value>)
    ensures |r| == |keys| && forall i :: 0 <= i < |keys| ==> r[i] == extract(Elem(f, keys[i]))
  {
    seq(|keys|, i requires 0 <= i < |keys| => extract(Elem(f, keys[i])))
  }

  /** `for (const k of keys) { const u = extract(f[k]); if (u) return u; } return undefined`:
      the first truthy extraction, in the order of `keys`. */
  function FirstHit(f: Value, keys: seq<string>, extract: Value -> Value): (r: Value)
    ensures FirstTruthy(Hits(f, keys, extract)).Some? ==>
      r == Hits(f, keys, extract)[FirstTruthy(Hits(f, keys, extract)).value]
    ensures FirstTruthy(Hits(f, keys, extract)).None? ==> r == Undefined
    ensures r == Undefined || Truthy(r)
  {
    if |keys| == 0 then Undefined
    else
      var u := extract(Elem(f, keys[0]));
      assert Hits(f, keys[1..], extract) == Hits(f, keys, extract)[1..];
      if Truthy(u) then u else FirstHit(f, keys[1..], extract)
  }

  /** The first field among `keys` whose value is neither `undefined` nor `null`. */
  function FirstDefined(f: Value, keys: seq<string>): (r: Option<Value>)
    ensures r.Some? ==>
      exists i :: 0 <= i < |keys| && r.value == Prop(f, keys[i]) && forall j :: 0 <= j < i ==> IsNullish(Prop(f, keys[j]))
    ensures r.Some? ==> !IsNullish(r.value)
    ensures r.None? <==> forall i :: 0 <= i < |keys| ==> IsNullish(Prop(f, keys[i]))
  {
    if |keys| == 0 then None
    else if !IsNullish(Prop(f, keys[0])) then Some(Prop(f, keys[0]))
    else
      var r := FirstDefined(f, keys[1..]);
      if r.Some? then
        ghost var i :| 0 <= i < |keys[1..]| && r.value == Prop(f, keys[1..][i]) &&
          (forall j :: 0 <= j < i ==> IsNullish(Prop(f, keys[1..][j])));
        assert r.value == Prop(f, keys[i + 1]);
        r
      else r
  }

  /** `Array.isArray(v) && v.length > 0`. */
  predicate IsNonEmptyArray(v: Value) {
    v.Arr? && |v.items| > 0
  }

  /** `Array.isArray(v) && v.length > 0 ? v[0] : v`: the first element stands in for an array. */
  function FirstOrSelf(v: Value): Value {
    if IsNonEmptyArray(v) then v.items[0] else v
  }

  /** `String(n)` for a number: integers below 10^21 in magnitude print in plain decimal;
      everything else is host formatting. */
  function NumToStr(h: Host, n: real): string {
    if n == n.Floor as real && -1000000000000000000000.0 < n < 1000000000000000000000.0
    then IntToStr(n.Floor)
    else h.numberToString(n)
  }

  /** Joins strings with ',' as `Array.prototype.join` does. */
  function JoinComma(parts: seq<string>): string {
    if |parts| == 0 then ""
    else if |parts| == 1 then parts[0]
    else parts[0] + "," + JoinComma(parts[1..])
  }

  /** `String(v)`. Arrays join their elements with ',', printing `null` and `undefined`
      elements as empty strings. */
  function ToStr(h: Host, v: Value): string {
    match v
    case Undefined => "undefined"
    case Null => "null"
    case Bool(b) => if b then "true" else "false"
    case Num(n) => NumToStr(h, n)
    case Str(s) => s
    case Arr(items) =>
      JoinComma(seq(|items|, i requires 0 <= i < |items| =>
        if items[i].Undefined? || items[i].Null? then "" else ToStr(h, items[i])))
    case Obj(_) => "[object Object]"
  }

  /** `new Date(v).getTime()`, `None` for an invalid date: strings (and objects, through their
      string form) are parsed; numbers, booleans and `null` are time values; `undefined` is NaN. */
  function NewDate(h: Host, v: Value): Option<int> {
    match v
    case Undefined => None
    case Null => h.timeClip(0.0)
    case Bool(b) => h.timeClip(if b then 1.0 else 0.0)
    case Num(n) => h.timeClip(n)
    case Str(s) => h.parseDate(s)
    case Arr(_) => h.parseDate(ToStr(h, v))
    case Obj(_) => h.parseDate(ToStr(h, v))
  }

  /** The long German date (`15. März 2025`) of a valid date, or `fallback` when formatting throws. */
  function FormatDeOr(h: Host, t: int, fallback: string): string {
    match h.formatDe(t)
    case Some(x) => x
    case None => fallback
  }
}
