/**
 * An abstract JSON tree and the field-reading rules that the derived
 * deserialisers of `src/resp.rs` apply to it: a field is looked up by its
 * wire name, a known field given twice is an error, a missing one is an
 * error, and keys nobody asks for are ignored.
 */
module Json {
  import opened Wrappers

  /** Objects are association lists, so order and duplicated keys stay visible. */
  datatype Json =
    | Null
    | Bool(b: bool)
    | Int(n: int)
    | Str(s: string)
    | Arr(items: seq<Json>)
    | Obj(fields: seq<(string, Json)>)

  datatype DecodeError =
    | NotAnObject
    | MissingField(name: string)
    | DuplicateField(name: string)
    | UnknownVariant(tag: string)
    | InvalidType(expected: string)
    | OutOfRange(n: int)

  /** Number of entries of `fields` whose key is `key`. */
  function Count(fields: seq<(string, Json)>, key: string): nat {
    if fields == [] then 0
    else (if fields[0].0 == key then 1 else 0) + Count(fields[1..], key)
  }

  /** The value of the first entry whose key is `key`. */
  function First(fields: seq<(string, Json)>, key: string): (v: Json)
    requires Count(fields, key) > 0
    ensures (key, v) in fields
  {
    if fields[0].0 == key then fields[0].1 else First(fields[1..], key)
  }

  /**
   * Looks `key` up: absent is `None`, present once is its value, present
   * more than once is a duplicate-field error.
   */
  function Lookup(fields: seq<(string, Json)>, key: string): (r: Result<Option<Json>, DecodeError>)
    ensures r.Err? <==> Count(fields, key) >= 2
    ensures r.Err? ==> r.error == DuplicateField(key)
    ensures r == Ok(None) <==> Count(fields, key) == 0
    ensures r.Ok? && r.value.Some? ==> (key, r.value.value) in fields
  {
    var n := Count(fields, key);
    if n == 0 then Ok(None)
    else if n == 1 then Ok(Some(First(fields, key)))
    else Err(DuplicateField(key))
  }

  /** A field that must be present exactly once. */
  function Required(fields: seq<(string, Json)>, key: string): (r: Result<Json, DecodeError>)
    ensures r.Ok? <==> Count(fields, key) == 1
    ensures r.Ok? ==> (key, r.value) in fields
    ensures Count(fields, key) == 0 ==> r == Err(MissingField(key))
  {
    var v :- Lookup(fields, key);
    if v.None? then Err(MissingField(key)) else Ok(v.value)
  }

  function AsBool(j: Json): (r: Result<bool, DecodeError>)
    ensures r.Ok? <==> j.Bool?
    ensures r.Ok? ==> j == Bool(r.value)
  {
    if j.Bool? then Ok(j.b) else Err(InvalidType("a boolean"))
  }

  function AsString(j: Json): (r: Result<string, DecodeError>)
    ensures r.Ok? <==> j.Str?
    ensures r.Ok? ==> j == Str(r.value)
  {
    if j.Str? then Ok(j.s) else Err(InvalidType("a string"))
  }

  /** An integer of a fixed-width type: `lo <= n < hi`, otherwise out of range. */
  function AsIntIn(j: Json, lo: int, hi: int): (r: Result<int, DecodeError>)
    ensures r.Ok? <==> j.Int? && lo <= j.n < hi
    ensures r.Ok? ==> j == Int(r.value) && lo <= r.value < hi
  {
    if !j.Int? then Err(InvalidType("an integer"))
    else if lo <= j.n < hi then Ok(j.n)
    else Err(OutOfRange(j.n))
  }

  /**
   * The unit value `()` is written `null`. Read back from buffered content,
   * as inside an internally tagged enum, an empty object is unit too.
   */
  function AsUnit(j: Json): (r: Result<(), DecodeError>)
    ensures r.Ok? <==> j == Null || j == Obj([])
  {
    if j.Null? || j == Obj([]) then Ok(()) else Err(InvalidType("null"))
  }

  /** An array of strings. */
  function AsStrings(j: Json): (r: Result<seq<string>, DecodeError>)
    ensures r.Ok? <==> j.Arr? && forall k :: 0 <= k < |j.items| ==> j.items[k].Str?
    ensures r.Ok? ==> |r.value| == |j.items| && forall k :: 0 <= k < |j.items| ==> j.items[k] == Str(r.value[k])
  {
    if !j.Arr? then Err(InvalidType("a sequence")) else StringItems(j.items)
  }

  function StringItems(items: seq<Json>): (r: Result<seq<string>, DecodeError>)
    ensures r.Ok? <==> forall k :: 0 <= k < |items| ==> items[k].Str?
    ensures r.Ok? ==> |r.value| == |items| && forall k :: 0 <= k < |items| ==> items[k] == Str(r.value[k])
  {
    if items == [] then Ok([])
    else
      var head :- AsString(items[0]);
      var tail :- StringItems(items[1..]);
      Ok([head] + tail)
  }

  /** An array of integers each in `lo <= n < hi`. */
  function AsInts(j: Json, lo: int, hi: int): (r: Result<seq<int>, DecodeError>)
    ensures r.Ok? <==> j.Arr? && forall k :: 0 <= k < |j.items| ==> j.items[k].Int? && lo <= j.items[k].n < hi
    ensures r.Ok? ==> |r.value| == |j.items| && forall k :: 0 <= k < |j.items| ==> j.items[k] == Int(r.value[k]) && lo <= r.value[k] < hi
  {
    if !j.Arr? then Err(InvalidType("a sequence")) else IntItems(j.items, lo, hi)
  }

  function IntItems(items: seq<Json>, lo: int, hi: int): (r: Result<seq<int>, DecodeError>)
    ensures r.Ok? <==> forall k :: 0 <= k < |items| ==> items[k].Int? && lo <= items[k].n < hi
    ensures r.Ok? ==> |r.value| == |items| && forall k :: 0 <= k < |items| ==> items[k] == Int(r.value[k]) && lo <= r.value[k] < hi
  {
    if items == [] then Ok([])
    else
      var head :- AsIntIn(items[0], lo, hi);
      var tail :- IntItems(items[1..], lo, hi);
      Ok([head] + tail)
  }

  /**
   * The values of the fields `names`, in that order; each must be present
   * exactly once. Other keys are not looked at.
   */
  function FieldValues(fields: seq<(string, Json)>, names: seq<string>): (r: Result<seq<Json>, DecodeError>)
    ensures r.Ok? <==> forall i :: 0 <= i < |names| ==> Count(fields, names[i]) == 1
    ensures r.Ok? ==> |r.value| == |names| && forall i :: 0 <= i < |names| ==> Lookup(fields, names[i]) == Ok(Some(r.value[i]))
  {
    if names == [] then Ok([])
    else
      var head :- Required(fields, names[0]);
      var tail :- FieldValues(fields, names[1..]);
      Ok([head] + tail)
  }

  /** An object whose keys are `names` and whose values are `values`, pairwise. */
  function Entries(names: seq<string>, values: seq<Json>): (fields: seq<(string, Json)>)
    requires |names| == |values|
    ensures |fields| == |names| && forall i :: 0 <= i < |names| ==> fields[i] == (names[i], values[i])
  {
    seq(|names|, i requires 0 <= i < |names| => (names[i], values[i]))
  }

  /** The keys of an object, in order. */
  function Keys(fields: seq<(string, Json)>): (ks: seq<string>)
    ensures |ks| == |fields| && forall k :: 0 <= k < |fields| ==> ks[k] == fields[k].0
  {
    if fields == [] then [] else [fields[0].0] + Keys(fields[1..])
  }

  lemma {:induction false} CountConcat(a: seq<(string, Json)>, b: seq<(string, Json)>, key: string)
    ensures Count(a + b, key) == Count(a, key) + Count(b, key)
  {
    if a == [] {
      assert a + b == b;
    } else {
      assert (a + b)[1..] == a[1..] + b;
      CountConcat(a[1..], b, key);
    }
  }

  /** A key occurs once exactly when it is among the keys and no other position repeats it. */
  lemma {:induction false} CountOfUniqueKey(fields: seq<(string, Json)>, i: nat)
    requires i < |fields|
    requires forall k :: 0 <= k < |fields| && k != i ==> fields[k].0 != fields[i].0
    ensures Count(fields, fields[i].0) == 1
  {
    var key := fields[i].0;
    if i == 0 {
      CountAbsent(fields[1..], key);
    } else {
      assert fields[0].0 != key;
      CountOfUniqueKey(fields[1..], i - 1);
    }
  }

  lemma {:induction false} CountAbsent(fields: seq<(string, Json)>, key: string)
    requires forall k :: 0 <= k < |fields| ==> fields[k].0 != key
    ensures Count(fields, key) == 0
  {
    if fields != [] {
      CountAbsent(fields[1..], key);
    }
  }

  /** When `key` occurs once, every entry with that key carries the one value. */
  lemma {:induction false} UniqueValue(fields: seq<(string, Json)>, key: string, v: Json, w: Json)
    requires Count(fields, key) == 1
    requires (key, v) in fields && (key, w) in fields
    ensures v == w
  {
    if fields[0].0 == key {
      CountAbsent(fields[1..], key) by {
        forall k | 0 <= k < |fields[1..]| ensures fields[1..][k].0 != key {
          if fields[1..][k].0 == key {
            CountPositive(fields[1..], k);
          }
        }
      }
      NotInWithoutKey(fields[1..], key, v);
      NotInWithoutKey(fields[1..], key, w);
    } else {
      assert fields == [fields[0]] + fields[1..];
      UniqueValue(fields[1..], key, v, w);
    }
  }

  lemma {:induction false} CountPositive(fields: seq<(string, Json)>, k: nat)
    requires k < |fields|
    ensures Count(fields, fields[k].0) > 0
  {
    if k > 0 {
      CountPositive(fields[1..], k - 1);
    }
  }

  lemma {:induction false} NotInWithoutKey(fields: seq<(string, Json)>, key: string, v: Json)
    requires Count(fields, key) == 0
    ensures (key, v) !in fields
  {
    if (key, v) in fields {
      var k :| 0 <= k < |fields| && fields[k] == (key, v);
      CountPositive(fields, k);
    }
  }

  /** In an object whose entry `i` holds the only copy of its key, looking that key up yields its value. */
  lemma LookupUnique(fields: seq<(string, Json)>, i: nat)
    requires i < |fields|
    requires forall k :: 0 <= k < |fields| && k != i ==> fields[k].0 != fields[i].0
    ensures Lookup(fields, fields[i].0) == Ok(Some(fields[i].1))
  {
    CountOfUniqueKey(fields, i);
    var r := Lookup(fields, fields[i].0);
    UniqueValue(fields, fields[i].0, r.value.value, fields[i].1);
  }

  /** Inserting an entry under another key changes nothing that a lookup of `key` sees. */
  lemma LookupIgnoresOtherKey(before: seq<(string, Json)>, after: seq<(string, Json)>, k: string, v: Json, key: string)
    requires k != key
    ensures Lookup(before + [(k, v)] + after, key) == Lookup(before + after, key)
  {
    var longer := before + [(k, v)] + after;
    var shorter := before + after;
    CountConcat(before + [(k, v)], after, key);
    CountConcat(before, [(k, v)], key);
    CountConcat(before, after, key);
    assert Count([(k, v)], key) == 0;
    if Count(shorter, key) == 1 {
      var a := First(longer, key);
      var b := First(shorter, key);
      assert (key, a) in shorter by {
        var j :| 0 <= j < |longer| && longer[j] == (key, a);
        if j < |before| {
          assert shorter[j] == longer[j];
        } else {
          assert j > |before|;
          assert shorter[j - 1] == longer[j];
        }
      }
      UniqueValue(shorter, key, a, b);
    }
  }

  /** Two objects that agree on every lookup of `names` give the same field values. */
  lemma {:induction false} FieldValuesDependOnNamesOnly(fs: seq<(string, Json)>, gs: seq<(string, Json)>, names: seq<string>)
    requires forall i :: 0 <= i < |names| ==> Lookup(fs, names[i]) == Lookup(gs, names[i])
    ensures FieldValues(fs, names) == FieldValues(gs, names)
  {
    if names != [] {
      FieldValuesDependOnNamesOnly(fs, gs, names[1..]);
    }
  }

  /** When every name looks up to the corresponding value, those are the field values read. */
  lemma FieldValuesFromLookups(fs: seq<(string, Json)>, names: seq<string>, values: seq<Json>)
    requires |names| == |values|
    requires forall i :: 0 <= i < |names| ==> Lookup(fs, names[i]) == Ok(Some(values[i]))
    ensures FieldValues(fs, names) == Ok(values)
  {
    var r := FieldValues(fs, names);
    assert r.Ok?;
    assert r.value == values;
  }

  /** Keys are pairwise distinct. */
  predicate DistinctKeys(fields: seq<(string, Json)>) {
    forall i, k :: 0 <= i < |fields| && 0 <= k < |fields| && i != k ==> fields[i].0 != fields[k].0
  }

  /** In an object without repeated keys every entry is found by its key. */
  lemma LookupEach(fields: seq<(string, Json)>)
    requires DistinctKeys(fields)
    ensures forall i :: 0 <= i < |fields| ==> Lookup(fields, fields[i].0) == Ok(Some(fields[i].1))
  {
    forall i | 0 <= i < |fields|
      ensures Lookup(fields, fields[i].0) == Ok(Some(fields[i].1))
    {
      LookupUnique(fields, i);
    }
  }
}
