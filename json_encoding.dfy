/**
 * The part of Go's encoding/json that the response envelopes rely on: a
 * struct is a sequence of exported fields, each with a `json:"key"` or
 * `json:"key,omitempty"` tag; encoding walks the fields in declaration
 * order and writes one object member per field, skipping an `omitempty`
 * field whose value is empty; decoding into a fresh struct reads each
 * field's key and leaves the zero value where the key is absent.
 *
 * Only the three kinds of field the envelopes declare are modelled:
 * strings, `any` payloads and slices of opaque elements. Payloads are
 * transported, never inspected, so they are values of a type parameter.
 */
module JsonEncoding {
  import opened Options

  datatype Kind = Text | Opaque | Array

  /** An object member's value. `Any(None)` is a nil interface. */
  datatype Value<A> = Str(s: string) | Any(payload: Option<A>) | List(items: seq<A>)

  /**
   * One struct field: its JSON key, its kind and whether it is tagged
   * omitempty. Keys are drawn from a type `K` of member names.
   */
  datatype FieldSpec<K> = FieldSpec(key: K, kind: Kind, omitEmpty: bool)

  /** A JSON object: member name to member value. */
  type Object<K(==), A> = map<K, Value<A>>

  predicate HasKind<A>(v: Value<A>, k: Kind) {
    match k
    case Text => v.Str?
    case Opaque => v.Any?
    case Array => v.List?
  }

  /** encoding/json's notion of an empty value, which omitempty drops. */
  predicate IsEmpty<A>(v: Value<A>) {
    match v
    case Str(s) => s == ""
    case Any(p) => p.None?
    case List(xs) => xs == []
  }

  /** The zero value a decoder leaves in a field whose key is absent. */
  function Zero<A>(k: Kind): (v: Value<A>)
    ensures HasKind(v, k) && IsEmpty(v)
  {
    match k
    case Text => Str("")
    case Opaque => Any(None)
    case Array => List([])
  }

  /** Whether the encoder writes a member for this field. */
  predicate Emitted<K, A>(f: FieldSpec<K>, v: Value<A>) {
    !(f.omitEmpty && IsEmpty(v))
  }

  /** The field values fit the struct's declared kinds. */
  predicate Conforms<K, A>(schema: seq<FieldSpec<K>>, vals: seq<Value<A>>) {
    |schema| == |vals| && forall i :: 0 <= i < |vals| ==> HasKind(vals[i], schema[i].kind)
  }

  /** Values fitting two field lists fit their concatenation. */
  lemma ConformsAppend<K, A>(s1: seq<FieldSpec<K>>, v1: seq<Value<A>>, s2: seq<FieldSpec<K>>, v2: seq<Value<A>>)
    requires Conforms(s1, v1) && Conforms(s2, v2)
    ensures Conforms(s1 + s2, v1 + v2)
  {
    forall i | |s1| <= i < |s1| + |s2| ensures HasKind((v1 + v2)[i], (s1 + s2)[i].kind) {
      assert (v1 + v2)[i] == v2[i - |s1|] && (s1 + s2)[i] == s2[i - |s1|];
    }
  }

  /** No two fields of the struct share a JSON key. */
  predicate DistinctKeys<K(==)>(schema: seq<FieldSpec<K>>) {
    forall i, j :: 0 <= i < j < |schema| ==> schema[i].key != schema[j].key
  }

  function Member<K(==), A>(f: FieldSpec<K>, v: Value<A>): Object<K, A> {
    if Emitted(f, v) then map[f.key := v] else map[]
  }

  /** Encoding: one member per emitted field, in declaration order. */
  function Emit<K(==), A>(schema: seq<FieldSpec<K>>, vals: seq<Value<A>>): Object<K, A>
    requires |schema| == |vals|
    decreases |schema|
  {
    if schema == [] then map[] else Member(schema[0], vals[0]) + Emit(schema[1..], vals[1..])
  }

  /** Every emitted field's key is in the object, and every key in it is some emitted field's. */
  lemma {:induction false} EmitDomain<K, A>(schema: seq<FieldSpec<K>>, vals: seq<Value<A>>)
    requires |schema| == |vals|
    ensures forall i :: 0 <= i < |schema| && Emitted(schema[i], vals[i]) ==> schema[i].key in Emit(schema, vals)
    ensures forall k :: k in Emit(schema, vals) ==>
      exists i :: 0 <= i < |schema| && schema[i].key == k && Emitted(schema[i], vals[i])
    decreases |schema|
  {
    if schema != [] {
      var rest := Emit(schema[1..], vals[1..]);
      EmitDomain(schema[1..], vals[1..]);
      forall i | 1 <= i < |schema| && Emitted(schema[i], vals[i]) ensures schema[i].key in rest {
        assert schema[1..][i - 1] == schema[i] && vals[1..][i - 1] == vals[i];
      }
      forall k | k in rest
        ensures exists i :: 1 <= i < |schema| && schema[i].key == k && Emitted(schema[i], vals[i])
      {
        var j :| 0 <= j < |schema| - 1 && schema[1..][j].key == k && Emitted(schema[1..][j], vals[1..][j]);
        assert schema[j + 1].key == k && Emitted(schema[j + 1], vals[j + 1]);
      }
    }
  }

  /**
   * How a decoder takes one member into a field of kind `k`: a member of the
   * field's kind is stored; JSON `null` (a nil `Any`) leaves a string field
   * "" and makes a slice or `any` field nil, its zero value; anything else
   * is a type error (None).
   */
  function Accept<A>(v: Value<A>, k: Kind): (r: Option<Value<A>>)
    ensures r.Some? ==> HasKind(r.value, k)
    ensures HasKind(v, k) ==> r == Some(v)
    ensures v == Any(None) ==> r == Some(Zero(k))
    ensures r.None? <==> !HasKind(v, k) && v != Any(None)
  {
    if HasKind(v, k) then Some(v)
    else if v == Any(None) then Some(Zero(k))
    else None
  }

  /** What one field receives from an object: its member as `Accept` takes it, or its zero value when the key is absent. */
  function Taken<K(==), A>(f: FieldSpec<K>, obj: Object<K, A>): Option<Value<A>> {
    if f.key in obj then Accept(obj[f.key], f.kind) else Some(Zero(f.kind))
  }

  /**
   * Decoding into a fresh struct: each field takes what `Taken` gives it;
   * one member a field cannot take makes the whole decode fail (None).
   * Keys the struct does not declare are ignored.
   */
  function Read<K(==), A>(schema: seq<FieldSpec<K>>, obj: Object<K, A>): (r: Option<seq<Value<A>>>)
    ensures r.Some? ==> Conforms(schema, r.value)
    ensures r.Some? ==> forall i :: 0 <= i < |schema| ==>
      Taken(schema[i], obj) == Some(r.value[i])
    ensures r.None? <==> exists i :: 0 <= i < |schema| && Taken(schema[i], obj).None?
    decreases |schema|
  {
    if schema == [] then Some([])
    else
      var f := schema[0];
      var v := Taken(f, obj);
      if v.None? then None
      else
        match Read(schema[1..], obj)
        case None =>
          assert exists i :: 1 <= i < |schema| && Taken(schema[i], obj).None? by {
            var j :| 0 <= j < |schema| - 1 && Taken(schema[1..][j], obj).None?;
            assert schema[j + 1] == schema[1..][j];
          }
          None
        case Some(rest) =>
          assert forall i :: 1 <= i < |schema| ==> schema[1..][i - 1] == schema[i];
          Some([v.value] + rest)
  }

  /** With distinct keys, an emitted field's member holds its value and a skipped field leaves no member. */
  lemma {:induction false} EmitLookup<K, A>(schema: seq<FieldSpec<K>>, vals: seq<Value<A>>, i: nat)
    requires |schema| == |vals| && DistinctKeys(schema) && i < |schema|
    ensures Emitted(schema[i], vals[i]) ==>
      schema[i].key in Emit(schema, vals) && Emit(schema, vals)[schema[i].key] == vals[i]
    ensures !Emitted(schema[i], vals[i]) ==> schema[i].key !in Emit(schema, vals)
    decreases i
  {
    var rest := Emit(schema[1..], vals[1..]);
    if i == 0 {
      EmitDomain(schema[1..], vals[1..]);
      forall j | 0 <= j < |schema| - 1 ensures schema[1..][j].key != schema[0].key {
        assert schema[1..][j] == schema[j + 1];
      }
      assert schema[0].key !in rest;
    } else {
      assert DistinctKeys(schema[1..]) by {
        forall a, b | 0 <= a < b < |schema| - 1 ensures schema[1..][a].key != schema[1..][b].key {
          assert schema[1..][a] == schema[a + 1] && schema[1..][b] == schema[b + 1];
        }
      }
      EmitLookup(schema[1..], vals[1..], i - 1);
      assert schema[1..][i - 1] == schema[i] && vals[1..][i - 1] == vals[i];
      assert schema[0].key != schema[i].key;
    }
  }

  /** The keys of the fields the encoder writes. */
  function KeySet<K, A>(schema: seq<FieldSpec<K>>, vals: seq<Value<A>>): set<K>
    requires |schema| == |vals|
  {
    set i | 0 <= i < |schema| && Emitted(schema[i], vals[i]) :: schema[i].key
  }

  /** The encoded object holds exactly the keys of the emitted fields. */
  lemma EmitKeySet<K, A>(schema: seq<FieldSpec<K>>, vals: seq<Value<A>>)
    requires |schema| == |vals|
    ensures Emit(schema, vals).Keys == KeySet(schema, vals)
  {
    EmitDomain(schema, vals);
    forall k | k in KeySet(schema, vals) ensures k in Emit(schema, vals) {
      var i :| 0 <= i < |schema| && Emitted(schema[i], vals[i]) && schema[i].key == k;
    }
    forall k | k in Emit(schema, vals) ensures k in KeySet(schema, vals) {
      var i :| 0 <= i < |schema| && schema[i].key == k && Emitted(schema[i], vals[i]);
    }
  }

  /** With distinct keys, a field's key is in the key set exactly when the field is emitted. */
  lemma KeySetMember<K, A>(schema: seq<FieldSpec<K>>, vals: seq<Value<A>>, i: nat)
    requires |schema| == |vals| && DistinctKeys(schema) && i < |schema|
    ensures schema[i].key in KeySet(schema, vals) <==> Emitted(schema[i], vals[i])
  {
    if schema[i].key in KeySet(schema, vals) {
      var j :| 0 <= j < |schema| && Emitted(schema[j], vals[j]) && schema[j].key == schema[i].key;
      assert i == j;
    }
  }

  /** Only declared keys are ever written. */
  lemma KeySetDeclared<K, A>(schema: seq<FieldSpec<K>>, vals: seq<Value<A>>, declared: set<K>)
    requires |schema| == |vals|
    requires forall i :: 0 <= i < |schema| ==> schema[i].key in declared
    ensures KeySet(schema, vals) <= declared
  {
  }

  /** The key set of concatenated fields is the union of the parts' key sets. */
  lemma KeySetAppend<K, A>(s1: seq<FieldSpec<K>>, v1: seq<Value<A>>, s2: seq<FieldSpec<K>>, v2: seq<Value<A>>)
    requires |s1| == |v1| && |s2| == |v2|
    ensures KeySet(s1 + s2, v1 + v2) == KeySet(s1, v1) + KeySet(s2, v2)
  {
    var s, v := s1 + s2, v1 + v2;
    forall k | k in KeySet(s, v) ensures k in KeySet(s1, v1) + KeySet(s2, v2) {
      var i :| 0 <= i < |s| && Emitted(s[i], v[i]) && s[i].key == k;
      if i >= |s1| {
        assert s[i] == s2[i - |s1|] && v[i] == v2[i - |s1|];
      }
    }
    forall k | k in KeySet(s1, v1) ensures k in KeySet(s, v) {
      var i :| 0 <= i < |s1| && Emitted(s1[i], v1[i]) && s1[i].key == k;
      assert s[i] == s1[i] && v[i] == v1[i];
    }
    forall k | k in KeySet(s2, v2) ensures k in KeySet(s, v) {
      var i :| 0 <= i < |s2| && Emitted(s2[i], v2[i]) && s2[i].key == k;
      assert s[i + |s1|] == s2[i] && v[i + |s1|] == v2[i];
    }
  }

  /**
   * Encoding a struct whose fields are those of one struct followed by those
   * of another (an embedded struct's fields are promoted this way) gives the
   * members of the first together with those of the second.
   */
  lemma {:induction false} EmitAppend<K, A>(s1: seq<FieldSpec<K>>, v1: seq<Value<A>>, s2: seq<FieldSpec<K>>, v2: seq<Value<A>>)
    requires |s1| == |v1| && |s2| == |v2|
    ensures Emit(s1 + s2, v1 + v2) == Emit(s1, v1) + Emit(s2, v2)
    decreases |s1|
  {
    if s1 != [] {
      assert (s1 + s2)[1..] == s1[1..] + s2 && (v1 + v2)[1..] == v1[1..] + v2;
      assert (s1 + s2)[0] == s1[0] && (v1 + v2)[0] == v1[0];
      EmitAppend(s1[1..], v1[1..], s2, v2);
      var m, r1, r2 := Member(s1[0], v1[0]), Emit(s1[1..], v1[1..]), Emit(s2, v2);
      calc {
        Emit(s1 + s2, v1 + v2);
        m + Emit(s1[1..] + s2, v1[1..] + v2);
        m + (r1 + r2);
        { UnionAssociative(m, r1, r2); }
        (m + r1) + r2;
      }
    } else {
      assert s1 + s2 == s2 && v1 + v2 == v2;
    }
  }

  /** Encoding fields followed by one more field adds that field's member, if it is emitted. */
  lemma EmitSnoc<K, A>(schema: seq<FieldSpec<K>>, vals: seq<Value<A>>, f: FieldSpec<K>, v: Value<A>)
    requires |schema| == |vals|
    ensures Emit(schema + [f], vals + [v]) == Emit(schema, vals) + Member(f, v)
  {
    EmitAppend(schema, vals, [f], [v]);
    assert Emit([f], [v]) == Member(f, v) + Emit([f][1..], [v][1..]);
  }

  lemma UnionAssociative<K, V>(a: map<K, V>, b: map<K, V>, c: map<K, V>)
    ensures a + (b + c) == (a + b) + c
  {
  }

  /**
   * Round trip: decoding what was encoded gives back every field, because a
   * member omitted for being empty decodes to the zero value, which is that
   * same empty value.
   */
  lemma ReadEmit<K, A>(schema: seq<FieldSpec<K>>, vals: seq<Value<A>>)
    requires Conforms(schema, vals) && DistinctKeys(schema)
    ensures Read(schema, Emit(schema, vals)) == Some(vals)
  {
    var obj := Emit(schema, vals);
    forall i | 0 <= i < |schema|
      ensures Taken(schema[i], obj) == Some(vals[i])
    {
      EmitLookup(schema, vals, i);
    }
    assert Read(schema, obj).value == vals;
  }
}
