/**
 * Raw documents as the document store and the HTTP layer hand them over:
 * untyped key/value maps, the Python operations the core applies to them
 * (`dict.get`, `str()`), and the field checks a pydantic model performs on
 * the values it is given.
 */
module Values {
  import opened Wrappers

  /** A value inside a stored document or a request body. */
  datatype Value =
    | Null
    | Bool(b: bool)
    | Int(i: int)
    | Num(r: real)
    | Str(s: string)
    | ObjectId(hex: string)
    | List(items: seq<Value>)
    | Dict(entries: map<string, Value>)

  /** A document, or the keyword arguments of a model constructor. */
  type Fields = map<string, Value>

  /** The exceptions the core can raise. */
  datatype Error =
    /** pydantic's ValidationError: the model and the names of its fields that failed, in declaration order */
    | ValidationError(model: string, fields: seq<string>)
    /** `**p` on a non-mapping, or iterating a value that is not iterable */
    | TypeError
    /** `x[key]` on an absent key */
    | KeyError(key: string)

  /** `d.get(key, default)`: the default is used only when the key is absent. */
  function Get(d: Fields, key: string, default: Value): (r: Value)
    ensures key in d ==> r == d[key]
    ensures key !in d ==> r == default
  {
    if key in d then d[key] else default
  }

  /**
   * A keyword argument of a model constructor: validated by `check` when it
   * is passed, `default` when it is not (`None` for a required field).
   */
  function Field<T>(args: Fields, key: string, default: Option<T>, check: Value -> Option<T>): Option<T> {
    if key in args then check(args[key]) else default
  }

  /** `[key]` when a field did not validate, `[]` when it did. */
  function Failed(key: string, ok: bool): seq<string> {
    if ok then [] else [key]
  }

  /** A `str` field: only a string validates. */
  function AsStr(v: Value): Option<string> {
    if v.Str? then Some(v.s) else None
  }

  /** An `Optional[str]` field: None or a string. */
  function AsOptStr(v: Value): Option<Option<string>> {
    match v
    case Null => Some(None)
    case Str(s) => Some(Some(s))
    case _ => None
  }

  /** A `float` field: a float, or an int converted to float. */
  function AsFloat(v: Value): Option<real> {
    match v
    case Num(r) => Some(r)
    case Int(i) => Some(i as real)
    case _ => None
  }

  /** An `int` field. */
  function AsInt(v: Value): Option<int> {
    if v.Int? then Some(v.i) else None
  }

  /** An `Optional[int]` field. */
  function AsOptInt(v: Value): Option<Option<int>> {
    match v
    case Null => Some(None)
    case Int(i) => Some(Some(i))
    case _ => None
  }

  /** A `List[str]` field: a list whose every item is a string. */
  function AsStrList(v: Value): Option<seq<string>> {
    if v.List? then StrItems(v.items) else None
  }

  /** The strings held by `items`, when every item is a string. */
  function StrItems(items: seq<Value>): (r: Option<seq<string>>)
    ensures r.Some? <==> forall k :: 0 <= k < |items| ==> items[k].Str?
    ensures r.Some? ==> |r.value| == |items|
    ensures r.Some? ==> forall k :: 0 <= k < |items| ==> items[k] == Str(r.value[k])
  {
    if items == [] then Some([])
    else if !items[0].Str? then None
    else match StrItems(items[1..])
      case None => None
      case Some(rest) => Some([items[0].s] + rest)
  }

  /** A sequence of strings as a stored list. */
  function StrValues(ss: seq<string>): seq<Value> {
    seq(|ss|, k requires 0 <= k < |ss| => Str(ss[k]))
  }

  /** Any list of strings, stored as a list, validates back to itself. */
  lemma StrListRoundTrip(ss: seq<string>)
    ensures AsStrList(List(StrValues(ss))) == Some(ss)
  {
    var r := StrItems(StrValues(ss));
    assert r.Some?;
    assert r.value == ss;
  }

  /** An optional string as a stored value. */
  function OptStrValue(o: Option<string>): Value {
    if o.Some? then Str(o.value) else Null
  }

  /** Any optional string, stored, validates back to itself. */
  lemma OptStrRoundTrip(o: Option<string>)
    ensures AsOptStr(OptStrValue(o)) == Some(o)
  {
  }

  /**
   * Python's `str()` of a value. Exact for None, booleans, integers, strings
   * and ObjectIds; the repr of a float, list or dict is not computed.
   */
  function PyStr(v: Value): (r: string)
    ensures v.Null? ==> r == "None"
    ensures v.Bool? ==> r == (if v.b then "True" else "False")
    ensures v.Str? ==> r == v.s
    ensures v.ObjectId? ==> r == v.hex
    ensures v.Int? && v.i >= 0 ==> DecimalValue(r) == Some(v.i) && (|r| == 1 || r[0] != '0')
    ensures v.Int? && v.i < 0 ==>
              |r| >= 2 && r[0] == '-' && DecimalValue(r[1..]) == Some(-v.i) && (|r| == 2 || r[1] != '0')
  {
    match v
    case Null => "None"
    case Bool(b) => if b then "True" else "False"
    case Int(i) => IntText(i)
    case Str(s) => s
    case ObjectId(hex) => hex
    case _ => "<repr>"
  }

  /**
   * The decimal text of an integer: its digits with no leading zero, after a
   * '-' when negative, reading back as the integer.
   */
  function IntText(i: int): (r: string)
    ensures i >= 0 ==> DecimalValue(r) == Some(i) && (|r| == 1 || r[0] != '0')
    ensures i < 0 ==> |r| >= 2 && r[0] == '-' && DecimalValue(r[1..]) == Some(-i) && (|r| == 2 || r[1] != '0')
  {
    if i < 0 then
      NatTextRoundTrip(-i);
      var t := "-" + NatText(-i);
      assert t[1..] == NatText(-i);
      t
    else
      NatTextRoundTrip(i);
      NatText(i)
  }

  /** The decimal digits of `n`, most significant first, with no leading zero. */
  function NatText(n: nat): (r: string)
    ensures |r| >= 1 && (|r| > 1 ==> r[0] != '0')
    ensures forall k :: 0 <= k < |r| ==> '0' <= r[k] <= '9'
    decreases n
  {
    if n < 10 then [Digit(n)] else NatText(n / 10) + [Digit(n % 10)]
  }

  function Digit(d: nat): (c: char)
    requires d < 10
  {
    ('0' as int + d) as char
  }

  /** The number a string of decimal digits denotes; None when it is empty or holds a non-digit. */
  function DecimalValue(s: string): Option<nat>
    decreases |s|
  {
    if s == [] || !('0' <= s[|s| - 1] <= '9') then None
    else
      var last := (s[|s| - 1] as int - '0' as int) as nat;
      if |s| == 1 then Some(last)
      else match DecimalValue(s[..|s| - 1])
        case None => None
        case Some(prefix) => Some(prefix * 10 + last)
  }

  /** NatText and DecimalValue are inverse: the text of `n` reads back as `n`. */
  lemma {:induction false} NatTextRoundTrip(n: nat)
    ensures DecimalValue(NatText(n)) == Some(n)
    decreases n
  {
    var t := NatText(n);
    if n >= 10 {
      NatTextRoundTrip(n / 10);
      assert t[..|t| - 1] == NatText(n / 10);
    }
  }
}
