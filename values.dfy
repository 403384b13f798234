/**
 JavaScript values as far as UMF messages use them: what counts as truthy, and
 which own enumerable properties `Object.assign` copies out of a value.
 Numbers are integers here.
 */
module Values {

  datatype Value =
    | Undefined
    | Null
    | Bool(b: bool)
    | Num(n: int)
    | Str(s: string)
    | Arr(items: seq<Value>)
    | Obj(fields: map<string, Value>)

  /** JavaScript truthiness: `undefined`, `null`, `false`, `0` and `""` are
      falsy. */
  predicate Truthy(v: Value)
  {
    match v
    case Undefined => false
    case Null => false
    case Bool(b) => b
    case Num(n) => n != 0
    case Str(s) => s != ""
    case Arr(_) => true
    case Obj(_) => true
  }

  function Digit(d: nat): (c: char)
    requires d < 10
    ensures '0' <= c <= '9'
    ensures c as int - '0' as int == d
  {
    ('0' as int + d) as char
  }

  /** The number a string of decimal digits denotes, most significant first. */
  function NumeralValue(s: string): int
  {
    if s == [] then 0
    else 10 * NumeralValue(s[..|s| - 1]) + (s[|s| - 1] as int - '0' as int)
  }

  /** The property key of array or string index `n`: its decimal numeral,
      without leading zeros. */
  function IndexKey(n: nat): (key: string)
    ensures 1 <= |key|
    ensures forall i | 0 <= i < |key| :: '0' <= key[i] <= '9'
    ensures NumeralValue(key) == n
    ensures key[0] == '0' ==> |key| == 1
  {
    if n < 10 then [Digit(n)]
    else
      var prefix := IndexKey(n / 10);
      assert (prefix + [Digit(n % 10)])[..|prefix|] == prefix;
      prefix + [Digit(n % 10)]
  }

  /** Distinct indices have distinct property keys. */
  lemma IndexKeyInjective(a: nat, b: nat)
    requires IndexKey(a) == IndexKey(b)
    ensures a == b
  {
    assert a == NumeralValue(IndexKey(a)) == NumeralValue(IndexKey(b)) == b;
  }

  /** The keys of the first `n` indices. */
  function IndexKeys(n: nat): set<string>
  {
    set i: nat | i < n :: IndexKey(i)
  }

  lemma IndexKeysStep(n: nat)
    ensures IndexKeys(n + 1) == IndexKeys(n) + {IndexKey(n)}
    ensures IndexKey(n) !in IndexKeys(n)
  {
    assert IndexKeys(n + 1) == IndexKeys(n) + {IndexKey(n)} by {
      forall k | k in IndexKeys(n + 1) ensures k in IndexKeys(n) + {IndexKey(n)} {
        var i: nat :| i < n + 1 && k == IndexKey(i);
        if i < n {
          assert k in IndexKeys(n);
        }
      }
    }
  }

  /** The properties of an array-like value: element `i` under key `IndexKey(i)`. */
  function Indexed(items: seq<Value>): map<string, Value>
  {
    if items == [] then map[]
    else
      var last := |items| - 1;
      Indexed(items[..last])[IndexKey(last) := items[last]]
  }

  /** An array-like value has exactly the index keys of its elements. */
  lemma {:induction false} IndexedKeys(items: seq<Value>)
    ensures Indexed(items).Keys == IndexKeys(|items|)
  {
    if items != [] {
      var last := |items| - 1;
      IndexedKeys(items[..last]);
      IndexKeysStep(last);
    }
  }

  /** Every element sits under its own index key. */
  lemma {:induction false} IndexedAt(items: seq<Value>, i: nat)
    requires i < |items|
    ensures IndexKey(i) in Indexed(items) && Indexed(items)[IndexKey(i)] == items[i]
  {
    var last := |items| - 1;
    if i < last {
      IndexedAt(items[..last], i);
      if IndexKey(i) == IndexKey(last) {
        IndexKeyInjective(i, last);
      }
    }
  }

  lemma IndexedSpec(items: seq<Value>)
    ensures forall i | 0 <= i < |items| :: IndexKey(i) in Indexed(items) && Indexed(items)[IndexKey(i)] == items[i]
    ensures Indexed(items).Keys == IndexKeys(|items|)
  {
    IndexedKeys(items);
    forall i | 0 <= i < |items|
      ensures IndexKey(i) in Indexed(items) && Indexed(items)[IndexKey(i)] == items[i]
    {
      IndexedAt(items, i);
    }
  }

  /** The one-character strings of `s`, in order. */
  function Characters(s: string): (cs: seq<Value>)
    ensures |cs| == |s|
    ensures forall i | 0 <= i < |s| :: cs[i] == Str([s[i]])
  {
    seq(|s|, i requires 0 <= i < |s| => Str([s[i]]))
  }

  /** What `Object.assign` copies out of a source value: an object's fields,
      an array's elements or a string's characters under their index keys, and
      nothing out of `undefined`, `null`, booleans and numbers. An own
      property holding `undefined` is copied like any other. */
  function OwnProperties(v: Value): (props: map<string, Value>)
    ensures v.Obj? ==> props == v.fields
    ensures v.Arr? ==> props == Indexed(v.items)
    ensures v.Str? ==> forall i | 0 <= i < |v.s| :: IndexKey(i) in props && props[IndexKey(i)] == Str([v.s[i]])
    ensures v.Str? ==> props.Keys == IndexKeys(|v.s|)
    ensures v.Undefined? || v.Null? || v.Bool? || v.Num? ==> props == map[]
  {
    match v
    case Obj(fields) => fields
    case Arr(items) => IndexedSpec(items); Indexed(items)
    case Str(s) => IndexedSpec(Characters(s)); Indexed(Characters(s))
    case _ => map[]
  }
}
