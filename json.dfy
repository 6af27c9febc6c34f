/** Decoded JSON values as the bot's Python code sees them, with the Python
    operations the modules apply to them: truthiness, `dict.get`, chains of
    `or`, `int(v)` and `str(v)`. */
module Json {
  import opened Wrappers
  import opened Strings

  /** A decoded JSON value. Numbers are integers in this model. */
  datatype Value =
    | Null
    | Bool(b: bool)
    | Int(i: int)
    | Str(s: string)
    | List(items: seq<Value>)
    | Object(fields: map<string, Value>)

  /** Python truthiness: `None`, `False`, `0`, `""`, `[]` and `{}` are false. */
  predicate Truthy(v: Value) {
    match v
    case Null => false
    case Bool(b) => b
    case Int(i) => i != 0
    case Str(s) => s != []
    case List(items) => items != []
    case Object(fields) => fields != map[]
  }

  /** `d.get(key)`: the stored value, or `None` for a missing key. */
  function Get(d: map<string, Value>, key: string): (r: Value)
    ensures key !in d ==> r == Null
    ensures key in d ==> r == d[key]
  {
    if key in d then d[key] else Null
  }

  /** `d.get(key, default)`. */
  function GetDefault(d: map<string, Value>, key: string, default: Value): (r: Value)
    ensures key !in d ==> r == default
    ensures key in d ==> r == d[key]
  {
    if key in d then d[key] else default
  }

  /** Python's `a or b`. */
  function Either(a: Value, b: Value): (r: Value)
    ensures r == a || r == b
    ensures Truthy(r) <==> Truthy(a) || Truthy(b)
  {
    if Truthy(a) then a else b
  }

  /** `d.get(k0) or d.get(k1) or ... or last`: the first truthy value, and
      `last` when none is truthy. */
  function OrGet(d: map<string, Value>, keys: seq<string>, last: Value): (r: Value)
    ensures Truthy(last) ==> Truthy(r)
    ensures !Truthy(r) ==> r == last
    ensures keys != [] && Truthy(Get(d, keys[0])) ==> r == Get(d, keys[0])
  {
    if keys == [] then last else Either(Get(d, keys[0]), OrGet(d, keys[1..], last))
  }

  /** The position of the first key whose value is truthy, `|keys|` when
      there is none. */
  function FirstTruthy(d: map<string, Value>, keys: seq<string>): (i: nat)
    ensures i <= |keys|
    ensures forall j :: 0 <= j < i ==> !Truthy(Get(d, keys[j]))
    ensures i < |keys| ==> Truthy(Get(d, keys[i]))
  {
    if keys == [] then 0
    else if Truthy(Get(d, keys[0])) then 0
    else 1 + FirstTruthy(d, keys[1..])
  }

  /** The value at the first truthy key, and `last` when there is none. */
  function FirstTruthyOr(d: map<string, Value>, keys: seq<string>, last: Value): Value {
    var i := FirstTruthy(d, keys);
    if i < |keys| then Get(d, keys[i]) else last
  }

  /** A chain of `or` over `d.get` yields the value at the first truthy key,
      and its last operand when no key's value is truthy. */
  lemma {:induction false} OrGetFirstTruthy(d: map<string, Value>, keys: seq<string>, last: Value)
    ensures OrGet(d, keys, last) == FirstTruthyOr(d, keys, last)
  {
    if keys != [] && !Truthy(Get(d, keys[0])) {
      OrGetFirstTruthy(d, keys[1..], last);
      assert OrGet(d, keys, last) == OrGet(d, keys[1..], last);
      var i := FirstTruthy(d, keys[1..]);
      assert i < |keys[1..]| ==> keys[1..][i] == keys[i + 1];
    }
  }

  /** `int(v)`; `None` where Python raises. */
  function ToInt(v: Value): Option<int> {
    match v
    case Int(i) => Some(i)
    case Bool(b) => Some(if b then 1 else 0)
    case Str(s) => ParseInt(s)
    case _ => None
  }

  /** `str(v)`. Lists and objects are shown by a fixed placeholder. */
  function Show(v: Value): string {
    match v
    case Null => "None"
    case Bool(b) => if b then "True" else "False"
    case Int(i) => IntToString(i)
    case Str(s) => s
    case List(_) => "[…]"
    case Object(_) => "{…}"
  }
}
