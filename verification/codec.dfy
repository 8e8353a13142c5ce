/** The building blocks every generated `_from_dict` / `_to_dict` pair is made
    of: reading one declared key of a dictionary (a plain attribute, a nested
    record, or a list of records) and writing one attribute back. */
module Codec {
  import opened Results
  import opened Json

  /** Why a `_from_dict` gives up. `MissingRequired` is the `ValueError`
      "Required property ... not present in ... JSON". `WrongShape` is the
      model's single answer when a nested-record key holds something that is
      not an object, or a list key something that is not a list of objects;
      Python's own outcome there depends on the value (an exception, or for
      strings and lists sometimes an empty record) and is not modelled. */
  datatype DecodeError =
    | MissingRequired(record: string, key: string)
    | WrongShape(record: string, key: string)

  type Decoded<T> = Result<T, DecodeError>

  /** A plain attribute: copied as is, `null` read as `None`; a required key
      must be present, but may be `null`. */
  function ScalarField(record: string, d: Dict, key: string, required: bool): Decoded<Option<Present>> {
    if key in d then Ok(Attribute(d[key]))
    else if required then Err(MissingRequired(record, key))
    else Ok(None)
  }

  /** A nested record attribute, decoded by that record's own `_from_dict`. */
  function RecordField<T>(record: string, d: Dict, key: string, required: bool,
                          decode: Dict -> Decoded<T>): Decoded<Option<T>> {
    if key !in d then
      if required then Err(MissingRequired(record, key)) else Ok(None)
    else
      match d[key]
      case Object(members) =>
        var x :- decode(members);
        Ok(Some(x))
      case _ => Err(WrongShape(record, key))
  }

  /** A list-of-records attribute, decoded element by element. */
  function ListField<T>(record: string, d: Dict, key: string,
                        decode: Dict -> Decoded<T>): Decoded<Option<seq<T>>> {
    if key !in d then Ok(None)
    else
      match d[key]
      case Array(items) =>
        var xs :- DecodeEach(record, key, items, decode);
        Ok(Some(xs))
      case _ => Err(WrongShape(record, key))
  }

  /** The list element decodes. */
  predicate ItemDecodes<T>(item: Json, decode: Dict -> Decoded<T>) {
    item.Object? && decode(item.members).Ok?
  }

  /** The error a list element that does not decode raises. */
  function ItemError<T>(record: string, key: string, item: Json, decode: Dict -> Decoded<T>): DecodeError
    requires !ItemDecodes(item, decode)
  {
    if item.Object? then decode(item.members).error else WrongShape(record, key)
  }

  /** The list comprehension `[T._from_dict(x) for x in items]`: it succeeds
      exactly when every element decodes, then keeps length and order, and
      otherwise raises the error of the first element that does not decode. */
  function DecodeEach<T>(record: string, key: string, items: seq<Json>,
                         decode: Dict -> Decoded<T>): (r: Decoded<seq<T>>)
    ensures r.Ok? <==> forall i :: 0 <= i < |items| ==> ItemDecodes(items[i], decode)
    ensures r.Ok? ==> |r.value| == |items|
    ensures r.Ok? ==> forall i :: 0 <= i < |items| ==> r.value[i] == decode(items[i].members).value
    ensures r.Err? ==> exists i :: 0 <= i < |items| && !ItemDecodes(items[i], decode)
                                   && (forall j :: 0 <= j < i ==> ItemDecodes(items[j], decode))
                                   && r.error == ItemError(record, key, items[i], decode)
  {
    if items == [] then Ok([])
    else if !items[0].Object? then Err(WrongShape(record, key))
    else
      var x :- decode(items[0].members);
      var rest :- DecodeEach(record, key, items[1..], decode);
      Ok([x] + rest)
  }

  /** The list comprehension `[x._to_dict() for x in xs]`: one object per
      element, in order. */
  function EncodeEach<T>(xs: seq<T>, encode: T -> Dict): (r: seq<Json>)
    ensures |r| == |xs|
    ensures forall i :: 0 <= i < |xs| ==> r[i] == Object(encode(xs[i]))
  {
    if xs == [] then [] else [Object(encode(xs[0]))] + EncodeEach(xs[1..], encode)
  }

  /** `Assign` for a nested record: its own `_to_dict()` is stored. */
  function PutRecord<T>(d: Dict, key: string, o: Option<T>, encode: T -> Dict): Dict {
    match o
    case None => d
    case Some(x) => d[key := Object(encode(x))]
  }

  /** The same for a list of records. */
  function PutList<T>(d: Dict, key: string, o: Option<seq<T>>, encode: T -> Dict): Dict {
    match o
    case None => d
    case Some(xs) => d[key := Array(EncodeEach(xs, encode))]
  }

  /** Decoding an encoded list gives the list back, when that holds of each
      element. */
  lemma {:induction false} EachRoundTrip<T>(record: string, key: string, xs: seq<T>,
                                            decode: Dict -> Decoded<T>, encode: T -> Dict)
    requires forall i :: 0 <= i < |xs| ==> decode(encode(xs[i])) == Ok(xs[i])
    ensures DecodeEach(record, key, EncodeEach(xs, encode), decode) == Ok(xs)
  {
    if xs != [] {
      var items := EncodeEach(xs, encode);
      assert items[1..] == EncodeEach(xs[1..], encode);
      EachRoundTrip(record, key, xs[1..], decode, encode);
      assert [xs[0]] + xs[1..] == xs;
    }
  }

  /** `d` holds plain attribute `o` at `key`: the key is present exactly
      when the attribute is set, and then holds its value. */
  predicate StoresScalar(d: Dict, key: string, o: Option<Present>) {
    && (key in d <==> o.Some?)
    && (o.Some? ==> d[key] == o.value)
  }

  /** `d` holds nested record `o` at `key`, encoded by `encode`. */
  predicate StoresRecord<T>(d: Dict, key: string, o: Option<T>, encode: T -> Dict) {
    && (key in d <==> o.Some?)
    && (o.Some? ==> d[key] == Object(encode(o.value)))
  }

  /** `d` holds list of records `o` at `key`, each encoded by `encode`. */
  predicate StoresList<T>(d: Dict, key: string, o: Option<seq<T>>, encode: T -> Dict) {
    && (key in d <==> o.Some?)
    && (o.Some? ==> d[key] == Array(EncodeEach(o.value, encode)))
  }

  /** An encoder that maps different records to different dictionaries. */
  ghost predicate Injective<T(!new)>(encode: T -> Dict) {
    forall a, b :: encode(a) == encode(b) ==> a == b
  }

  /** Reading back a plain attribute stored by `Assign`. */
  lemma ScalarFieldRoundTrip(record: string, d: Dict, key: string, required: bool, o: Option<Present>)
    requires StoresScalar(d, key, o) && (required ==> o.Some?)
    ensures ScalarField(record, d, key, required) == Ok(o)
  {
  }

  /** Reading back a nested record stored by `PutRecord`. */
  lemma RecordFieldRoundTrip<T>(record: string, d: Dict, key: string, required: bool, o: Option<T>,
                                decode: Dict -> Decoded<T>, encode: T -> Dict)
    requires StoresRecord(d, key, o, encode) && (required ==> o.Some?)
    requires o.Some? ==> decode(encode(o.value)) == Ok(o.value)
    ensures RecordField(record, d, key, required, decode) == Ok(o)
  {
  }

  /** Reading back a list of records stored by `PutList`. */
  lemma ListFieldRoundTrip<T>(record: string, d: Dict, key: string, o: Option<seq<T>>,
                              decode: Dict -> Decoded<T>, encode: T -> Dict)
    requires StoresList(d, key, o, encode)
    requires o.Some? ==> forall i :: 0 <= i < |o.value| ==> decode(encode(o.value[i])) == Ok(o.value[i])
    ensures ListField(record, d, key, decode) == Ok(o)
  {
    if o.Some? {
      EachRoundTrip(record, key, o.value, decode, encode);
    }
  }

  /** Two lists with the same encoding are equal, if the element encoder is injective. */
  lemma EachInjective<T(!new)>(xs: seq<T>, ys: seq<T>, encode: T -> Dict)
    requires Injective(encode)
    requires EncodeEach(xs, encode) == EncodeEach(ys, encode)
    ensures xs == ys
  {
  }

  /** A dictionary holds at most one list under a key, for an injective element encoder. */
  lemma StoresListUnique<T(!new)>(d: Dict, key: string, o1: Option<seq<T>>, o2: Option<seq<T>>, encode: T -> Dict)
    requires Injective(encode)
    requires StoresList(d, key, o1, encode) && StoresList(d, key, o2, encode)
    ensures o1 == o2
  {
    if o1.Some? {
      EachInjective(o1.value, o2.value, encode);
    }
  }
}
