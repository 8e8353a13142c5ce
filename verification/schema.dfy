/** A reference semantics for the generated model classes, independent of any
    one class: a record type is described by its declared keys, in declaration
    order, each with a shape (plain attribute, nested record, list of records)
    and a required flag. `Canon` interprets such a description directly: it
    raises what the class's `_from_dict` raises, and otherwise returns what
    `_to_dict` would emit for the decoded object. The hand-written codecs in
    module Models are proved to agree with it (module ModelLaws). */
module Schemas {
  import opened Results
  import opened Json
  import opened Codec

  datatype Shape = Scalar | Record(schema: Schema) | RecordList(schema: Schema)

  datatype Field = Field(key: string, shape: Shape, required: bool)

  /** `name` is the Python class name, used in error messages. */
  datatype Schema = Schema(name: string, fields: seq<Field>)

  /** The keys a record type declares. */
  function Keys(s: Schema): set<string> {
    set i | 0 <= i < |s.fields| :: s.fields[i].key
  }

  /** Canonical form of `d` under `s`: the declared keys it holds, with `null`
      plain attributes dropped and nested values canonicalised in turn; or the
      first error met, reading fields in declaration order. */
  function Canon(s: Schema, d: Dict): Decoded<Dict> {
    CanonFields(s, 0, map[], d)
  }

  /** Fields `i..` of `s`, read from `d` and added to the dictionary `acc`
      built from fields `..i`. */
  function CanonFields(s: Schema, i: nat, acc: Dict, d: Dict): Decoded<Dict>
    decreases s, 0, |s.fields| - i, 1
  {
    if i >= |s.fields| then Ok(acc)
    else
      var v :- CanonField(s, i, d);
      CanonFields(s, i + 1, Assign(acc, s.fields[i].key, v), d)
  }

  /** Field `i` of `s`, read from `d`: `None` when it is to be left out. */
  function CanonField(s: Schema, i: nat, d: Dict): Decoded<Option<Json>>
    requires i < |s.fields|
    decreases s, 0, |s.fields| - i, 0
  {
    var f := s.fields[i];
    if f.key !in d then
      if f.required then Err(MissingRequired(s.name, f.key)) else Ok(None)
    else
      match f.shape
      case Scalar => Ok(if d[f.key].Null? then None else Some(d[f.key]))
      case Record(sub) =>
        if d[f.key].Object? then
          var c :- CanonFields(sub, 0, map[], d[f.key].members);
          Ok(Some(Object(c)))
        else Err(WrongShape(s.name, f.key))
      case RecordList(sub) =>
        if d[f.key].Array? then
          var cs :- CanonList(s.name, f.key, sub, d[f.key].items);
          Ok(Some(Array(cs)))
        else Err(WrongShape(s.name, f.key))
  }

  /** The elements of list attribute `key` of record type `record`, each under `s`. */
  function CanonList(record: string, key: string, s: Schema, items: seq<Json>): Decoded<seq<Json>>
    decreases s, 1, |items|, 0
  {
    if items == [] then Ok([])
    else if !items[0].Object? then Err(WrongShape(record, key))
    else
      var c :- CanonFields(s, 0, map[], items[0].members);
      var rest :- CanonList(record, key, s, items[1..]);
      Ok([Object(c)] + rest)
  }

  /** A hand-written decoder/encoder pair agrees with `s` on input `d`: the
      decoder raises exactly the error `Canon` raises, and otherwise encoding
      what it decoded gives `Canon`'s result. */
  ghost predicate Agrees<T>(s: Schema, decode: Dict -> Decoded<T>, encode: T -> Dict, d: Dict) {
    match decode(d)
    case Ok(x) => Canon(s, d) == Ok(encode(x))
    case Err(e) => Canon(s, d) == Err(e)
  }

  /** The pair agrees with `s` on every input. */
  ghost predicate Implements<T>(s: Schema, decode: Dict -> Decoded<T>, encode: T -> Dict) {
    forall d :: Agrees(s, decode, encode, d)
  }

  /** Only plain attributes, none of them nested. */
  predicate Flat(s: Schema) {
    forall i :: 0 <= i < |s.fields| ==> s.fields[i].shape.Scalar?
  }

  /** Keys a record type does not declare play no part in decoding it, whatever
      their values. */
  lemma {:induction false} CanonIgnoresUndeclared(s: Schema, i: nat, acc: Dict, d: Dict, extra: Dict)
    requires extra.Keys !! Keys(s)
    ensures CanonFields(s, i, acc, d + extra) == CanonFields(s, i, acc, d)
    decreases |s.fields| - i
  {
    if i < |s.fields| {
      var f := s.fields[i];
      assert f.key in Keys(s);
      assert CanonField(s, i, d + extra) == CanonField(s, i, d);
      if CanonField(s, i, d).Ok? {
        CanonIgnoresUndeclared(s, i + 1, Assign(acc, f.key, CanonField(s, i, d).value), d, extra);
      }
    }
  }

  /** The same for a hand-written decoder that agrees with `s` and whose
      encoder tells records apart. */
  lemma DecodeIgnoresUndeclared<T(!new)>(s: Schema, decode: Dict -> Decoded<T>, encode: T -> Dict,
                                         d: Dict, extra: Dict)
    requires Implements(s, decode, encode) && Injective(encode)
    requires extra.Keys !! Keys(s)
    ensures decode(d + extra) == decode(d)
  {
    CanonIgnoresUndeclared(s, 0, map[], d, extra);
    assert Agrees(s, decode, encode, d);
    assert Agrees(s, decode, encode, d + extra);
  }

  /** Reading a plain attribute agrees with `Canon` on that field. */
  lemma ScalarFieldAgrees(s: Schema, i: nat, acc: Dict, d: Dict)
    requires i < |s.fields| && s.fields[i].shape.Scalar?
    ensures var f := s.fields[i];
            var r := ScalarField(s.name, d, f.key, f.required);
            && (r.Err? ==> CanonField(s, i, d) == Err(r.error))
            && (r.Ok? ==> CanonField(s, i, d).Ok?
                          && Assign(acc, f.key, CanonField(s, i, d).value) == Assign(acc, f.key, r.value))
  {
  }

  /** Reading a nested record agrees with `Canon` on that field, given a
      decoder/encoder pair that agrees with the nested record's schema. */
  lemma RecordFieldAgrees<T>(s: Schema, i: nat, acc: Dict, d: Dict, decode: Dict -> Decoded<T>, encode: T -> Dict)
    requires i < |s.fields| && s.fields[i].shape.Record?
    requires Implements(s.fields[i].shape.schema, decode, encode)
    ensures var f := s.fields[i];
            var r := RecordField(s.name, d, f.key, f.required, decode);
            && (r.Err? ==> CanonField(s, i, d) == Err(r.error))
            && (r.Ok? ==> CanonField(s, i, d).Ok?
                          && Assign(acc, f.key, CanonField(s, i, d).value) == PutRecord(acc, f.key, r.value, encode))
  {
    var f := s.fields[i];
    if f.key in d && d[f.key].Object? {
      assert Agrees(f.shape.schema, decode, encode, d[f.key].members);
    }
  }

  /** Reading a list of records agrees with `Canon` on that field. */
  lemma ListFieldAgrees<T>(s: Schema, i: nat, acc: Dict, d: Dict, decode: Dict -> Decoded<T>, encode: T -> Dict)
    requires i < |s.fields| && s.fields[i].shape.RecordList? && !s.fields[i].required
    requires Implements(s.fields[i].shape.schema, decode, encode)
    ensures var f := s.fields[i];
            var r := ListField(s.name, d, f.key, decode);
            && (r.Err? ==> CanonField(s, i, d) == Err(r.error))
            && (r.Ok? ==> CanonField(s, i, d).Ok?
                          && Assign(acc, f.key, CanonField(s, i, d).value) == PutList(acc, f.key, r.value, encode))
  {
    var f := s.fields[i];
    if f.key in d && d[f.key].Array? {
      EachAgrees(s.name, f.key, f.shape.schema, d[f.key].items, decode, encode);
    }
  }

  /** Decoding a list element by element and encoding it back agrees with
      canonicalising each element. */
  lemma {:induction false} EachAgrees<T>(record: string, key: string, s: Schema, items: seq<Json>,
                                         decode: Dict -> Decoded<T>, encode: T -> Dict)
    requires Implements(s, decode, encode)
    ensures var r := DecodeEach(record, key, items, decode);
            && (r.Err? ==> CanonList(record, key, s, items) == Err(r.error))
            && (r.Ok? ==> CanonList(record, key, s, items) == Ok(EncodeEach(r.value, encode)))
  {
    if items != [] && items[0].Object? {
      assert Agrees(s, decode, encode, items[0].members);
      EachAgrees(record, key, s, items[1..], decode, encode);
      var r := DecodeEach(record, key, items, decode);
      if r.Ok? {
        assert r.value[1..] == DecodeEach(record, key, items[1..], decode).value;
      }
    }
  }

  /** The keys of fields `i..` of `s`. */
  function KeysFrom(s: Schema, i: nat): set<string> {
    set j | i <= j < |s.fields| :: s.fields[j].key
  }

  /** `d` cut down to the keys `ks`, without the keys bound to `null`. */
  function Restrict(d: Dict, ks: set<string>): Dict {
    map k | k in d && k in ks && !d[k].Null? :: d[k]
  }

  lemma KeysFromStep(s: Schema, i: nat)
    requires i < |s.fields|
    ensures KeysFrom(s, i) == {s.fields[i].key} + KeysFrom(s, i + 1)
  {
  }

  lemma RestrictStep(acc: Dict, d: Dict, k: string, ks: set<string>)
    ensures Assign(acc, k, if k in d && !d[k].Null? then Some(d[k]) else None) + Restrict(d, ks)
            == acc + Restrict(d, {k} + ks)
  {
  }

  /** For a record type with only plain attributes, the canonical form is the
      input restricted to the declared keys, minus those bound to `null`. */
  lemma {:induction false} FlatCanonIsRestriction(s: Schema, i: nat, acc: Dict, d: Dict)
    requires Flat(s)
    requires CanonFields(s, i, acc, d).Ok?
    ensures CanonFields(s, i, acc, d).value == acc + Restrict(d, KeysFrom(s, i))
    decreases |s.fields| - i
  {
    if i < |s.fields| {
      var k := s.fields[i].key;
      var v := CanonField(s, i, d).value;
      assert v == if k in d && !d[k].Null? then Some(d[k]) else None;
      FlatCanonIsRestriction(s, i + 1, Assign(acc, k, v), d);
      KeysFromStep(s, i);
      RestrictStep(acc, d, k, KeysFrom(s, i + 1));
    } else {
      assert Restrict(d, KeysFrom(s, i)) == map[];
    }
  }
}
