/**
 * The flat JavaScript objects the forms send as request bodies, as ordered
 * lists of properties (`JSON.stringify` writes them in that order), and the
 * object spread `{ ...a, ...b }` used to build them.
 */
module JsonObject {
  import opened Types

  datatype JsonValue = JString(str: string) | JBool(flag: bool)

  type Field = (string, JsonValue)
  type Object = seq<Field>

  function Keys(o: Object): (ks: seq<string>)
    ensures |ks| == |o|
  {
    if o == [] then [] else [o[0].0] + Keys(o[1..])
  }

  /** No property name occurs twice, as in every JavaScript object. */
  predicate DistinctKeys(o: Object) {
    o == [] || (o[0].0 !in Keys(o[1..]) && DistinctKeys(o[1..]))
  }

  /** The value of property `k`, or `None` when the object has no such property. */
  function Get(o: Object, k: string): (r: Option<JsonValue>)
    ensures r.Some? <==> k in Keys(o)
  {
    if o == [] then None else if o[0].0 == k then Some(o[0].1) else Get(o[1..], k)
  }

  /**
   * `o[k] = v`: an existing property keeps its position and takes the new value;
   * a new property goes last.
   */
  function Put(o: Object, k: string, v: JsonValue): Object {
    if o == [] then [(k, v)]
    else if o[0].0 == k then [(k, v)] + o[1..]
    else [o[0]] + Put(o[1..], k, v)
  }

  /** Copies the properties of `fields`, in order, onto `o`. */
  function Assign(o: Object, fields: Object): Object
    decreases |fields|
  {
    if fields == [] then o else Assign(Put(o, fields[0].0, fields[0].1), fields[1..])
  }

  /** `{ ...a, ...b }` */
  function Spread(a: Object, b: Object): Object {
    Assign(Assign([], a), b)
  }

  // ---------------------------------------------------------------------------
  // Properties

  lemma {:induction false} KeysAppend(a: Object, b: Object)
    ensures Keys(a + b) == Keys(a) + Keys(b)
  {
    if a != [] {
      assert (a + b)[0] == a[0] && (a + b)[1..] == a[1..] + b;
      KeysAppend(a[1..], b);
      assert Keys(a + b) == [a[0].0] + Keys(a[1..] + b);
    } else {
      assert a + b == b;
    }
  }

  lemma KeysCons(f: Field, o: Object)
    ensures Keys([f] + o) == [f.0] + Keys(o)
    ensures DistinctKeys([f] + o) <==> f.0 !in Keys(o) && DistinctKeys(o)
  {
    assert ([f] + o)[1..] == o;
  }

  lemma {:induction false} PutGet(o: Object, k: string, v: JsonValue, k': string)
    ensures Get(Put(o, k, v), k') == if k' == k then Some(v) else Get(o, k')
  {
    if o != [] && o[0].0 != k {
      PutGet(o[1..], k, v, k');
    }
  }

  lemma {:induction false} PutKeys(o: Object, k: string, v: JsonValue)
    ensures k in Keys(o) ==> Keys(Put(o, k, v)) == Keys(o)
    ensures k !in Keys(o) ==> Put(o, k, v) == o + [(k, v)]
  {
    if o != [] && o[0].0 != k {
      PutKeys(o[1..], k, v);
    }
  }

  lemma {:induction false} PutDistinct(o: Object, k: string, v: JsonValue)
    requires DistinctKeys(o)
    ensures DistinctKeys(Put(o, k, v))
  {
    if o != [] && o[0].0 != k {
      PutDistinct(o[1..], k, v);
      PutKeys(o[1..], k, v);
      if k !in Keys(o[1..]) {
        KeysAppend(o[1..], [(k, v)]);
      }
    }
  }

  /** Assigning distinct properties: the last assignment of each key decides its value. */
  lemma {:induction false} AssignGet(o: Object, fields: Object, k: string)
    requires DistinctKeys(fields)
    ensures Get(Assign(o, fields), k) == if k in Keys(fields) then Get(fields, k) else Get(o, k)
    decreases |fields|
  {
    if fields != [] {
      var f := fields[0];
      AssignGet(Put(o, f.0, f.1), fields[1..], k);
      PutGet(o, f.0, f.1, k);
    }
  }

  /** Assigning only properties the object already has changes no position. */
  lemma {:induction false} AssignKeysKept(o: Object, fields: Object)
    requires forall k :: k in Keys(fields) ==> k in Keys(o)
    ensures Keys(Assign(o, fields)) == Keys(o)
    decreases |fields|
  {
    if fields != [] {
      var f := fields[0];
      PutKeys(o, f.0, f.1);
      AssignKeysKept(Put(o, f.0, f.1), fields[1..]);
    }
  }

  /** Moving the first of a list of fresh properties onto the object leaves the rest fresh. */
  lemma FreshStep(o: Object, f: Field, rest: Object)
    requires DistinctKeys([f] + rest)
    requires forall k :: k in Keys([f] + rest) ==> k !in Keys(o)
    ensures f.0 !in Keys(o) && DistinctKeys(rest)
    ensures forall k :: k in Keys(rest) ==> k !in Keys(o + [f])
  {
    KeysCons(f, rest);
    KeysAppend(o, [f]);
    forall k | k in Keys(rest)
      ensures k !in Keys(o + [f])
    {
      assert k in Keys([f] + rest);
    }
  }

  /** Assigning properties the object lacks appends them unchanged, in order. */
  lemma {:induction false} AssignDisjoint(o: Object, fields: Object)
    requires DistinctKeys(fields)
    requires forall k :: k in Keys(fields) ==> k !in Keys(o)
    ensures Assign(o, fields) == o + fields
    decreases |fields|
  {
    if fields != [] {
      var f, rest := fields[0], fields[1..];
      assert fields == [f] + rest;
      FreshStep(o, f, rest);
      PutKeys(o, f.0, f.1);
      AssignDisjoint(o + [f], rest);
      assert o + [f] + rest == o + fields;
    }
  }

  lemma {:induction false} AssignDistinct(o: Object, fields: Object)
    requires DistinctKeys(o)
    ensures DistinctKeys(Assign(o, fields))
    decreases |fields|
  {
    if fields != [] {
      PutDistinct(o, fields[0].0, fields[0].1);
      AssignDistinct(Put(o, fields[0].0, fields[0].1), fields[1..]);
    }
  }

  /** Spreading an object into an empty literal copies it unchanged. */
  lemma SpreadCopy(a: Object)
    requires DistinctKeys(a)
    ensures Assign([], a) == a
  {
    AssignDisjoint([], a);
  }

  /** `{ ...a, ...b }` reads every property from `b` when `b` has it, otherwise from `a`. */
  lemma SpreadGet(a: Object, b: Object, k: string)
    requires DistinctKeys(a) && DistinctKeys(b)
    ensures Get(Spread(a, b), k) == if k in Keys(b) then Get(b, k) else Get(a, k)
  {
    SpreadCopy(a);
    AssignGet(a, b, k);
  }

  /** Overriding properties `a` already has leaves its key order as it was. */
  lemma SpreadOverrideKeys(a: Object, b: Object)
    requires DistinctKeys(a)
    requires forall k :: k in Keys(b) ==> k in Keys(a)
    ensures Keys(Spread(a, b)) == Keys(a) && DistinctKeys(Spread(a, b))
  {
    SpreadCopy(a);
    AssignKeysKept(a, b);
    AssignDistinct(a, b);
  }

  /** With no common property, `{ ...a, ...b }` is `a` followed by `b`. */
  lemma SpreadDisjoint(a: Object, b: Object)
    requires DistinctKeys(a) && DistinctKeys(b)
    requires forall k :: k in Keys(b) ==> k !in Keys(a)
    ensures Spread(a, b) == a + b
  {
    SpreadCopy(a);
    AssignDisjoint(a, b);
  }
}
