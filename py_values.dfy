/** Python values as they arrive from JSON (node definitions, provider
    responses, chunk metadata) and the dictionary operations the backend
    applies to them: `d.get(k, default)`, `d[k] = v`, `d.update(o)`,
    truthiness, `str()`, `len()` and `float()`. */
module PyValues {
  import opened Wrappers
  import opened Strings

  /** A JSON-shaped Python value. A float carries the text Python prints for
      it, since float formatting is not part of the model. An object is its
      list of (key, value) entries in insertion order. */
  datatype Value =
    | Null
    | Bool(b: bool)
    | Int(i: int)
    | Float(x: real, text: string)
    | Str(s: string)
    | List(items: seq<Value>)
    | Obj(fields: Fields)

  /** One `key: value` entry of a dict. */
  datatype Field = Field(key: string, val: Value)

  type Fields = seq<Field>

  /** `bool(v)` */
  predicate Truthy(v: Value) {
    match v
    case Null => false
    case Bool(b) => b
    case Int(i) => i != 0
    case Float(x, _) => x != 0.0
    case Str(s) => s != ""
    case List(items) => items != []
    case Obj(fields) => fields != []
  }

  /** `a or b` */
  function Or(a: Value, b: Value): (r: Value)
    ensures Truthy(a) ==> r == a
    ensures !Truthy(a) ==> r == b
  {
    if Truthy(a) then a else b
  }

  predicate HasKey(d: Fields, key: string) {
    exists k :: 0 <= k < |d| && d[k].key == key
  }

  /** A Python dict never repeats a key. */
  predicate IsDict(d: Fields) {
    forall i, j :: 0 <= i < j < |d| ==> d[i].key != d[j].key
  }

  /** `list(d.keys())`, in insertion order. */
  function Keys(d: Fields): (ks: seq<string>)
    ensures |ks| == |d|
    ensures forall i :: 0 <= i < |d| ==> ks[i] == d[i].key
  {
    if d == [] then [] else [d[0].key] + Keys(d[1..])
  }

  /** `d[key]` when present. */
  function Lookup(d: Fields, key: string): (r: Option<Value>)
    ensures r.Some? <==> HasKey(d, key)
    ensures r.Some? ==> exists k :: 0 <= k < |d| && d[k] == Field(key, r.value)
  {
    if d == [] then None
    else if d[0].key == key then Some(d[0].val)
    else
      var r := Lookup(d[1..], key);
      assert forall k :: 1 <= k < |d| ==> d[k] == d[1..][k - 1];
      r
  }

  /** `d.get(key, default)`: present keys win even when their value is falsy. */
  function GetOr(d: Fields, key: string, default: Value): (r: Value)
    ensures HasKey(d, key) ==> Some(r) == Lookup(d, key)
    ensures !HasKey(d, key) ==> r == default
  {
    Lookup(d, key).GetOr(default)
  }

  /** `d.get(key)` */
  function Get(d: Fields, key: string): Value {
    GetOr(d, key, Null)
  }

  /** `d[key] = v`: an existing key keeps its place, a new one goes last. */
  function Put(d: Fields, key: string, v: Value): (r: Fields)
    ensures HasKey(d, key) ==> |r| == |d|
    ensures !HasKey(d, key) ==> r == d + [Field(key, v)]
  {
    if d == [] then [Field(key, v)]
    else if d[0].key == key then [Field(key, v)] + d[1..]
    else
      assert HasKey(d, key) <==> HasKey(d[1..], key) by {
        if HasKey(d[1..], key) {
          var k :| 0 <= k < |d[1..]| && d[1..][k].key == key;
          assert d[k + 1].key == key;
        }
      }
      [d[0]] + Put(d[1..], key, v)
  }

  lemma {:induction false} LookupPut(d: Fields, key: string, v: Value, other: string)
    ensures Lookup(Put(d, key, v), key) == Some(v)
    ensures other != key ==> Lookup(Put(d, key, v), other) == Lookup(d, other)
  {
    var p := Put(d, key, v);
    if d == [] {
      assert p == [Field(key, v)];
    } else if d[0].key == key {
      assert p[0] == Field(key, v) && p[1..] == d[1..];
    } else {
      LookupPut(d[1..], key, v, other);
      assert p[0] == d[0] && p[1..] == Put(d[1..], key, v);
      assert Lookup(p, key) == Lookup(p[1..], key);
      if other != key && d[0].key != other {
        assert Lookup(p, other) == Lookup(p[1..], other);
        assert Lookup(d, other) == Lookup(d[1..], other);
      }
    }
  }

  /** A key of a nonempty dict is its first key or a key of the rest. */
  lemma {:induction false} HasKeyCons(d: Fields, k: string)
    requires d != []
    ensures HasKey(d, k) <==> d[0].key == k || HasKey(d[1..], k)
  {
    if HasKey(d, k) && d[0].key != k {
      var j :| 0 <= j < |d| && d[j].key == k;
      assert d[1..][j - 1].key == k;
    }
    if HasKey(d[1..], k) {
      var j :| 0 <= j < |d[1..]| && d[1..][j].key == k;
      assert d[j + 1].key == k;
    }
  }

  /** Assignment keeps a dict a dict and adds exactly its key. */
  lemma {:induction false} PutKeepsDict(d: Fields, key: string, v: Value)
    requires IsDict(d)
    ensures IsDict(Put(d, key, v))
    ensures forall k :: HasKey(Put(d, key, v), k) <==> HasKey(d, k) || k == key
  {
    var r := Put(d, key, v);
    if d == [] {
      assert forall k :: HasKey(r, k) <==> r[0].key == k;
    } else {
      assert r[1..] == if d[0].key == key then d[1..] else Put(d[1..], key, v);
      assert r[0].key == d[0].key;
      forall k ensures HasKey(r, k) <==> HasKey(d, k) || k == key {
        HasKeyCons(r, k);
        HasKeyCons(d, k);
        if d[0].key != key {
          PutKeepsDict(d[1..], key, v);
        }
      }
      if d[0].key != key {
        PutKeepsDict(d[1..], key, v);
        HasKeyCons(d, d[0].key);
        assert !HasKey(d[1..], d[0].key) by {
          forall j | 0 <= j < |d[1..]| ensures d[1..][j].key != d[0].key {
            assert d[1..][j] == d[j + 1];
          }
        }
      }
      forall i, j | 0 <= i < j < |r| ensures r[i].key != r[j].key {
        if i == 0 {
          assert r[j] == r[1..][j - 1];
          if d[0].key == key {
            assert r[1..][j - 1] == d[j];
          } else {
            assert !HasKey(r[1..], d[0].key);
          }
        } else {
          assert r[i] == r[1..][i - 1] && r[j] == r[1..][j - 1];
          if d[0].key == key {
            assert r[1..][i - 1] == d[i] && r[1..][j - 1] == d[j];
          }
        }
      }
    }
  }

  /** `d.update(other)`: the entries of `other` are assigned one by one. */
  function Update(d: Fields, other: Fields): Fields
    decreases |other|
  {
    if other == [] then d else Update(Put(d, other[0].key, other[0].val), other[1..])
  }

  /** After `d.update(other)` a key of `other` reads its value from `other`,
      any other key reads what it read before. */
  lemma {:induction false} LookupUpdate(d: Fields, other: Fields, key: string)
    requires IsDict(other)
    ensures Lookup(Update(d, other), key) == if HasKey(other, key) then Lookup(other, key) else Lookup(d, key)
    decreases |other|
  {
    if other != [] {
      var d' := Put(d, other[0].key, other[0].val);
      LookupUpdate(d', other[1..], key);
      LookupPut(d, other[0].key, other[0].val, key);
      if key != other[0].key {
        HasKeyCons(other, key);
      } else {
        assert !HasKey(other[1..], key) by {
          forall j | 0 <= j < |other[1..]| ensures other[1..][j].key != key {
            assert other[1..][j] == other[j + 1];
          }
        }
      }
    }
  }

  /** `type(v).__name__` */
  function TypeName(v: Value): string {
    match v
    case Null => "NoneType"
    case Bool(_) => "bool"
    case Int(_) => "int"
    case Float(_, _) => "float"
    case Str(_) => "str"
    case List(_) => "list"
    case Obj(_) => "dict"
  }

  /** The message of the AttributeError raised by `v.attr` on a value that
      has no such method. */
  function NoAttribute(v: Value, attr: string): string {
    "'" + TypeName(v) + "' object has no attribute '" + attr + "'"
  }

  /** `v.get(key, default)` on a value that should be a dict. */
  function GetIn(v: Value, key: string, default: Value): (r: Result<Value, Exc>)
    ensures v.Obj? <==> r.Ok?
    ensures v.Obj? ==> r.value == GetOr(v.fields, key, default)
    ensures !v.Obj? ==> r.error == AttributeError(NoAttribute(v, "get"))
  {
    match v
    case Obj(fields) => Ok(GetOr(fields, key, default))
    case _ => Err(AttributeError(NoAttribute(v, "get")))
  }

  /** `v[key]` with a string key: a dict gives the value or `KeyError`;
      anything else raises `TypeError`. */
  function Subscript(v: Value, key: string): (r: Result<Value, Exc>)
    ensures r.Ok? <==> v.Obj? && HasKey(v.fields, key)
    ensures r.Ok? ==> Lookup(v.fields, key) == Some(r.value)
    ensures v.Obj? && !HasKey(v.fields, key) ==> r == Err(KeyError(key))
  {
    match v
    case Obj(fields) =>
      (match Lookup(fields, key)
       case Some(x) => Ok(x)
       case None => Err(KeyError(key)))
    case Str(_) => Err(TypeError("string indices must be integers, not 'str'"))
    case List(_) => Err(TypeError("list indices must be integers or slices, not str"))
    case _ => Err(TypeError("'" + TypeName(v) + "' object is not subscriptable"))
  }

  /** Only containers of other values are unhashable. */
  predicate Hashable(v: Value) {
    !v.List? && !v.Obj?
  }

  /** `key in v` for a string `key`: a dict tests its keys, a string its
      substrings, a list its items; anything else raises `TypeError`. */
  function In(key: string, v: Value): (r: Result<bool, Exc>)
    ensures v.Obj? ==> r == Ok(HasKey(v.fields, key))
    ensures v.Str? ==> r == Ok(Contains(v.s, key))
    ensures v.List? ==> r == Ok(Str(key) in v.items)
    ensures r.Err? <==> !(v.Obj? || v.Str? || v.List?)
  {
    match v
    case Obj(fields) => Ok(HasKey(fields, key))
    case Str(s) => Ok(Contains(s, key))
    case List(items) => Ok(Str(key) in items)
    case _ => Err(TypeError("argument of type '" + TypeName(v) + "' is not iterable"))
  }

  /** `str(v)`. A string is itself; strings nested in a list or dict are
      written by `StrRepr`, quoted and with backslashes, the quote and
      control characters escaped. */
  function PyStr(v: Value): (r: string)
    ensures v.Str? ==> r == v.s
    decreases v, 1
  {
    match v
    case Null => "None"
    case Bool(b) => if b then "True" else "False"
    case Int(i) => IntToString(i)
    case Float(_, text) => text
    case Str(s) => s
    case List(items) => "[" + ReprItems(items) + "]"
    case Obj(fields) => "{" + ReprEntries(fields) + "}"
  }

  /** `repr(v)` */
  function Repr(v: Value): string
    decreases v, 2
  {
    if v.Str? then StrRepr(v.s) else PyStr(v)
  }

  function ReprItems(items: seq<Value>): string
    decreases items
  {
    if items == [] then ""
    else if |items| == 1 then Repr(items[0])
    else Repr(items[0]) + ", " + ReprItems(items[1..])
  }

  function ReprEntries(fields: Fields): string
    decreases fields
  {
    if fields == [] then ""
    else
      var entry := StrRepr(fields[0].key) + ": " + Repr(fields[0].val);
      if |fields| == 1 then entry else entry + ", " + ReprEntries(fields[1..])
  }

  /** The items a `for` loop over `v` visits: a list's items, a string's
      characters, a dict's keys; anything else raises `TypeError`. */
  function Iter(v: Value): (r: Result<seq<Value>, Exc>)
    ensures v.List? ==> r == Ok(v.items)
    ensures r.Ok? && !v.List? ==> forall k :: 0 <= k < |r.value| ==> r.value[k].Str?
    ensures r.Err? <==> !(v.List? || v.Str? || v.Obj?)
  {
    match v
    case List(items) => Ok(items)
    case Str(s) => Ok(seq(|s|, i requires 0 <= i < |s| => Str([s[i]])))
    case Obj(fields) => Ok(seq(|fields|, i requires 0 <= i < |fields| => Str(fields[i].key)))
    case _ => Err(TypeError("'" + TypeName(v) + "' object is not iterable"))
  }

  /** `len(v)`, `None` where Python raises TypeError. */
  function PyLen(v: Value): Option<nat> {
    match v
    case Str(s) => Some(|s|)
    case List(items) => Some(|items|)
    case Obj(fields) => Some(|fields|)
    case _ => None
  }

  /** `float(v)`, `None` where Python raises ValueError or TypeError. Python's
      parsing of float literals is the parameter `parseFloat`. */
  function ToFloat(v: Value, parseFloat: string -> Option<real>): (r: Option<real>)
    ensures v.Float? ==> r == Some(v.x)
    ensures v.Int? ==> r == Some(v.i as real)
    ensures v.Null? || v.List? || v.Obj? ==> r == None
  {
    match v
    case Bool(b) => Some(if b then 1.0 else 0.0)
    case Int(i) => Some(i as real)
    case Float(x, _) => Some(x)
    case Str(s) => parseFloat(s)
    case _ => None
  }
}
