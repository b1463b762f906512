/** Exactly which values survive encoding and decoding (shutils/param.py). */
module ParamExact {
  import opened Options
  import opened Params

  /** A value as a program builds it: enum members and instances belong to their classes, and the keys of a
      dictionary are scalars or enum members, no two of them equal. */
  predicate Plain(v: Val)
    decreases v
  {
    match v
    case VEnum(e, _) => Member(v) && GoodTy(e)
    case VData(_, vals) => Instance(v) && forall i :: 0 <= i < |vals| ==> Plain(vals[i])
    case VList(items) => forall i :: 0 <= i < |items| ==> Plain(items[i])
    case VTuple(items) => forall i :: 0 <= i < |items| ==> Plain(items[i])
    case VDict(entries) =>
      && (forall i :: 0 <= i < |entries| ==> PlainEntry(entries[i]))
      && (forall i, j :: 0 <= i < j < |entries| ==> !Same(entries[i].key, entries[j].key))
    case VType(_) => false
    case _ => true
  }

  predicate PlainEntry(e: Entry)
    decreases e
  {
    (Scalar(e.key) || (Member(e.key) && GoodTy(e.key.enum))) && Plain(e.value)
  }

  /** Decoding the encoded value, strictly or not, gives the value back with its omitted fields restored. */
  ghost predicate Returns(ty: Ty, v: Val, skip: bool, strict: bool) {
    Encode(v, skip).Ok? && Decode(ty, Encode(v, skip).value, strict) == Ok(Restored(v, skip))
  }

  // ---------------------------------------------------------------- what encoding and restoring keep

  lemma {:induction false} EncodedItems(vs: seq<Val>, skip: bool)
    requires EncodeAll(vs, skip).Ok?
    ensures |EncodeAll(vs, skip).value| == |RestoredAll(vs, skip)| == |vs|
    ensures forall i :: 0 <= i < |vs| ==> Encode(vs[i], skip) == Ok(EncodeAll(vs, skip).value[i])
    ensures forall i :: 0 <= i < |vs| ==> RestoredAll(vs, skip)[i] == Restored(vs[i], skip)
  {
    if vs != [] {
      EncodedItems(vs[1..], skip);
      assert forall i :: 1 <= i < |vs| ==> vs[i] == vs[1..][i - 1];
    }
  }

  lemma {:induction false} EncodedEntries(entries: seq<Entry>, skip: bool)
    requires EncodeEntries(entries, skip).Ok?
    ensures |EncodeEntries(entries, skip).value| == |RestoredEntries(entries, skip)| == |entries|
    ensures forall i :: 0 <= i < |entries| ==>
      && Encode(entries[i].value, skip) == Ok(EncodeEntries(entries, skip).value[i].value)
      && EncodeEntries(entries, skip).value[i].key == entries[i].key
    ensures forall i :: 0 <= i < |entries| ==>
      RestoredEntries(entries, skip)[i] == Entry(entries[i].key, Restored(entries[i].value, skip))
  {
    if entries != [] {
      EncodedEntries(entries[1..], skip);
      assert forall i :: 1 <= i < |entries| ==> entries[i] == entries[1..][i - 1];
    }
  }

  lemma {:induction false} RestoredFieldAt(fields: seq<Field>, vals: seq<Val>, skip: bool)
    requires |fields| == |vals|
    ensures |RestoredFields(fields, vals, skip)| == |vals|
    ensures forall i :: 0 <= i < |vals| ==> RestoredFields(fields, vals, skip)[i] == RestoredField(fields[i], vals[i], skip)
  {
    if vals != [] {
      RestoredFieldAt(fields[1..], vals[1..], skip);
      assert forall i :: 1 <= i < |vals| ==> vals[i] == vals[1..][i - 1] && fields[i] == fields[1..][i - 1];
    }
  }

  /** A value that restores to a type object is one. */
  lemma NotAType(v: Val, skip: bool)
    requires Plain(v)
    ensures !Restored(v, skip).VType?
  {
  }

  // ---------------------------------------------------------------- one constructor each

  lemma ScalarReturns(ty: Ty, v: Val, skip: bool, strict: bool)
    requires ScalarTy(ty) && Plain(v) && Returns(ty, v, skip, strict)
    ensures HasType(v, ty, skip)
  {
    NotAType(v, skip);
    var e := Encode(v, skip).value;
    assert IsInstance(e, ty);
  }

  lemma EnumReturns(ty: Ty, v: Val, skip: bool, strict: bool)
    requires ty.TEnum? && Plain(v) && Returns(ty, v, skip, strict)
    ensures HasType(v, ty, skip)
  {
    FindMemberGives(ty, Encode(v, skip).value, 0);
  }

  lemma ListReturns(ty: Ty, v: Val, skip: bool, strict: bool)
    requires ty.TList? && Plain(v) && Returns(ty, v, skip, strict)
    ensures v.VList? && forall i :: 0 <= i < |v.list| ==> Plain(v.list[i]) && Returns(ty.elem, v.list[i], skip, false)
  {
    EncodedItems(v.list, skip);
    AllTakenIff(ty, EncodeAll(v.list, skip).value);
  }

  lemma TupleReturns(ty: Ty, v: Val, skip: bool, strict: bool)
    requires ty.TTuple? && Plain(v) && Returns(ty, v, skip, strict)
    ensures v.VTuple? && |v.tuple| == |ty.items|
    ensures forall i :: 0 <= i < |v.tuple| ==> Plain(v.tuple[i]) && Returns(ty.items[i], v.tuple[i], skip, false)
  {
    EncodedItems(v.tuple, skip);
    EachTakenIff(ty.items, EncodeAll(v.tuple, skip).value);
  }

  lemma DataReturns(ty: Ty, v: Val, skip: bool, strict: bool)
    requires ty.TData? && GoodTy(ty) && Plain(v) && Returns(ty, v, skip, strict)
    ensures Instance(v) && v.cls == ty
    ensures forall i :: 0 <= i < |v.vals| ==>
      Plain(v.vals[i]) && FieldReturns(ty.fields[i], v.vals[i], skip)
  {
    var data := Encode(v, skip).value;
    RestoredFieldAt(v.cls.fields, v.vals, skip);
    FieldsTakenIff(ty.fields, data);
    forall i | 0 <= i < |v.vals| ensures FieldReturns(ty.fields[i], v.vals[i], skip) {
      FindField(ty.fields, v.vals, skip, i);
    }
  }

  ghost predicate FieldReturns(f: Field, v: Val, skip: bool) {
    if Omitted(skip, f, v) then f.default.Some? else Returns(f.ty, v, skip, false)
  }

  /** A dictionary grows with every entry only if no key repeats, and then it lists them in order. */
  lemma {:induction false} GrowsInOrder(ty: Ty, entries: seq<Entry>, made: seq<Entry>)
    requires ty.TDict? && DecodeEntries(ty, entries, made).Ok?
    ensures |DecodeEntries(ty, entries, made).value| <= |made| + |entries|
    ensures |DecodeEntries(ty, entries, made).value| == |made| + |entries| ==>
      && DecodeEntries(ty, entries, made).value[..|made|] == made
      && forall i :: 0 <= i < |entries| ==>
           && Decode(ty.key, entries[i].key, false) == Ok(DecodeEntries(ty, entries, made).value[|made| + i].key)
           && Decode(ty.item, entries[i].value, false) == Ok(DecodeEntries(ty, entries, made).value[|made| + i].value)
    decreases |entries|
  {
    if entries != [] {
      var e := Entry(Decode(ty.key, entries[0].key, false).value, Decode(ty.item, entries[0].value, false).value);
      PutGrows(made, e);
      GrowsInOrder(ty, entries[1..], Put(made, e));
      assert forall i :: 1 <= i < |entries| ==> entries[i] == entries[1..][i - 1];
      var r := DecodeEntries(ty, entries, made).value;
      if |r| == |made| + |entries| {
        assert r[..|made| + 1] == made + [e];
        assert r[..|made|] == r[..|made| + 1][..|made|] && r[|made|] == r[..|made| + 1][|made|];
        forall i | 1 <= i < |entries|
          ensures Decode(ty.key, entries[i].key, false) == Ok(r[|made| + i].key)
          ensures Decode(ty.item, entries[i].value, false) == Ok(r[|made| + i].value)
        {
          assert entries[i] == entries[1..][i - 1] && r[|made| + i] == r[|made| + 1 + (i - 1)];
        }
      }
    }
  }

  lemma {:induction false} PutGrows(made: seq<Entry>, e: Entry)
    ensures |made| <= |Put(made, e)| <= |made| + 1
    ensures |Put(made, e)| == |made| + 1 ==> Put(made, e) == made + [e]
  {
    if made != [] {
      PutGrows(made[1..], e);
      assert made == [made[0]] + made[1..];
    }
  }

  lemma DictReturns(ty: Ty, v: Val, skip: bool, strict: bool)
    requires ty.TDict? && Plain(v) && Returns(ty, v, skip, strict)
    ensures v.VDict?
    ensures forall i :: 0 <= i < |v.entries| ==>
      && Plain(v.entries[i].value) && Returns(ty.item, v.entries[i].value, skip, false)
      && PlainEntry(v.entries[i]) && Decode(ty.key, v.entries[i].key, false) == Ok(v.entries[i].key)
  {
    EncodedEntries(v.entries, skip);
    GrowsInOrder(ty, EncodeEntries(v.entries, skip).value, []);
  }

  /** A key that comes back is of the key type. */
  lemma KeyReturns(k: Val, ty: Ty)
    requires (ScalarTy(ty) || ty.TEnum?) && (Scalar(k) || Member(k)) && Decode(ty, k, false) == Ok(k)
    ensures IsKey(k, ty)
  {
    if ty.TEnum? { FindMemberGives(ty, k, 0); }
  }

  /** The first arm that takes the encoding strictly, if that is how the union returned the value. */
  lemma {:induction false} FirstTaker(arms: seq<Ty>, e: Val) returns (i: nat)
    requires GoodTy(TUnion(arms)) && DecodeArms(arms, e, true).Ok?
    ensures FirstToAccept(arms, i, e) && Decode(arms[i], e, true) == DecodeArms(arms, e, true)
    decreases |arms|
  {
    DecodesIff(arms[0], e, true);
    if Decode(arms[0], e, true).Ok? {
      i := 0;
    } else {
      var j := FirstTaker(arms[1..], e);
      i := j + 1;
      forall k | 0 <= k < i ensures !Takes(arms[k], e, true) {
        if k > 0 { assert arms[k] == arms[1..][k - 1]; }
      }
    }
  }

  /** What no arm takes strictly comes out of a union as a type object, if at all. */
  lemma {:induction false} LateArmsGiveTypes(arms: seq<Ty>, e: Val)
    requires DecodeArms(arms, e, true).Raise? && DecodeArms(arms, e, false).Ok?
    ensures DecodeArms(arms, e, false).value.VType?
  {
    StrictAgrees(arms[0], e);
    if Decode(arms[0], e, false).Raise? {
      LateArmsGiveTypes(arms[1..], e);
    }
  }

  // ---------------------------------------------------------------- main results

  /** A value that comes back, whether decoded strictly or not, is of the type. */
  lemma {:induction false} ReturnsHasType(ty: Ty, v: Val, skip: bool, strict: bool)
    requires GoodTy(ty) && Plain(v) && Returns(ty, v, skip, strict)
    ensures HasType(v, ty, skip)
    decreases ty
  {
    match ty
    case TEnum(_, _) => EnumReturns(ty, v, skip, strict);
    case TList(elem) =>
      ListReturns(ty, v, skip, strict);
      hide Returns;
      forall i | 0 <= i < |v.list| ensures HasType(v.list[i], elem, skip) {
        ReturnsHasType(elem, v.list[i], skip, false);
      }
    case TTuple(items) =>
      TupleReturns(ty, v, skip, strict);
      hide Returns;
      forall i | 0 <= i < |v.tuple| ensures HasType(v.tuple[i], items[i], skip) {
        ReturnsHasType(items[i], v.tuple[i], skip, false);
      }
    case TDict(key, item) =>
      DictReturns(ty, v, skip, strict);
      hide Returns;
      forall i | 0 <= i < |v.entries|
        ensures IsKey(v.entries[i].key, key) && HasType(v.entries[i].value, item, skip)
      {
        KeyReturns(v.entries[i].key, key);
        ReturnsHasType(item, v.entries[i].value, skip, false);
      }
    case TData(_, fields) =>
      DataReturns(ty, v, skip, strict);
      hide Returns;
      forall i | 0 <= i < |fields|
        ensures if Omitted(skip, fields[i], v.vals[i]) then fields[i].default.Some? else HasType(v.vals[i], fields[i].ty, skip)
      {
        assert FieldReturns(fields[i], v.vals[i], skip);
        if !Omitted(skip, fields[i], v.vals[i]) {
          ReturnsHasType(fields[i].ty, v.vals[i], skip, false);
        }
      }
    case TUnion(arms) =>
      var i := UnionReturns(arms, v, skip, strict);
      ReturnsHasType(arms[i], v, skip, true);
    case _ => ScalarReturns(ty, v, skip, strict);
  }

  lemma UnionReturns(arms: seq<Ty>, v: Val, skip: bool, strict: bool) returns (i: nat)
    requires GoodTy(TUnion(arms)) && Plain(v) && Returns(TUnion(arms), v, skip, strict)
    ensures FirstToAccept(arms, i, Encode(v, skip).value) && Returns(arms[i], v, skip, true)
  {
    var e := Encode(v, skip).value;
    NotAType(v, skip);
    if DecodeArms(arms, e, true).Raise? {
      LateArmsGiveTypes(arms, e);
    }
    i := FirstTaker(arms, e);
  }

  /** Exactly the well-typed values survive: a condition on the type and the value alone, for every type and every value
      that can be encoded. */
  lemma RoundTripsIff(ty: Ty, v: Val, skip: bool)
    requires GoodTy(ty) && Plain(v) && Encode(v, skip).Ok?
    ensures RoundTrips(v, ty, skip) <==> HasType(v, ty, skip)
  {
    hide HasType, Plain, GoodTy, Restored;
    if RoundTrips(v, ty, skip) {
      assert Returns(ty, v, skip, false);
      ReturnsHasType(ty, v, skip, false);
    }
    if HasType(v, ty, skip) {
      DecodeEncode(v, ty, skip);
    }
  }

  /** Through a union a value survives exactly when it is of the first arm that takes its encoding strictly. */
  lemma UnionTripsIff(arms: seq<Ty>, v: Val, skip: bool)
    requires GoodTy(TUnion(arms)) && Plain(v) && Encode(v, skip).Ok?
    ensures RoundTrips(v, TUnion(arms), skip)
      <==> exists i :: 0 <= i < |arms| && HasType(v, arms[i], skip) && FirstToAccept(arms, i, Encode(v, skip).value)
  {
    RoundTripsIff(TUnion(arms), v, skip);
  }

  lemma FirstTakerDecides(arms: seq<Ty>, v: Val, skip: bool)
    requires arms != [] && GoodTy(TUnion(arms)) && Plain(v) && Encode(v, skip).Ok?
    requires Takes(arms[0], Encode(v, skip).value, true)
    ensures RoundTrips(v, TUnion(arms), skip) <==> HasType(v, arms[0], skip)
  {
    UnionTripsIff(arms, v, skip);
    assert HasType(v, arms[0], skip) ==> FirstToAccept(arms, 0, Encode(v, skip).value);
  }

  /** A container type whose parts are scalars. */
  predicate FlatTy(ty: Ty) {
    match ty
    case TList(elem) => ScalarTy(elem)
    case TTuple(items) => forall i :: 0 <= i < |items| ==> ScalarTy(items[i])
    case TDict(key, item) => ScalarTy(key) && ScalarTy(item)
    case _ => false
  }

  /** A container of the same kind whose parts are scalars of any type. */
  predicate FlatLike(v: Val, ty: Ty)
    requires FlatTy(ty)
  {
    match ty
    case TList(_) => v.VList? && forall i :: 0 <= i < |v.list| ==> Scalar(v.list[i])
    case TTuple(items) => v.VTuple? && |v.tuple| == |items| && forall i :: 0 <= i < |v.tuple| ==> Scalar(v.tuple[i])
    case TDict(_, _) =>
      v.VDict? && forall i :: 0 <= i < |v.entries| ==> Scalar(v.entries[i].key) && Scalar(v.entries[i].value)
  }

  predicate PartsFit(v: Val, ty: Ty)
    requires FlatTy(ty) && FlatLike(v, ty)
  {
    match ty
    case TList(elem) => forall i :: 0 <= i < |v.list| ==> IsInstance(v.list[i], elem)
    case TTuple(items) => forall i :: 0 <= i < |v.tuple| ==> IsInstance(v.tuple[i], items[i])
    case TDict(key, item) =>
      forall i :: 0 <= i < |v.entries| ==> IsInstance(v.entries[i].key, key) && IsInstance(v.entries[i].value, item)
  }

  /** Lists, tuples and dictionaries are taken for their shape. So when the first arm of a union is a container of
      scalars, a container of the same kind survives exactly when all its parts are instances for that arm, whatever
      the later arms are. */
  lemma FirstContainerDecides(arms: seq<Ty>, v: Val, skip: bool)
    requires arms != [] && GoodTy(TUnion(arms)) && FlatTy(arms[0]) && FlatLike(v, arms[0]) && Plain(v)
    ensures RoundTrips(v, TUnion(arms), skip) <==> PartsFit(v, arms[0])
  {
    FlatTaken(arms[0], v, skip);
    FlatFits(arms[0], v, skip);
    FirstTakerDecides(arms, v, skip);
  }

  lemma FlatTaken(ty: Ty, v: Val, skip: bool)
    requires FlatTy(ty) && FlatLike(v, ty)
    ensures Encode(v, skip) == Ok(v) && Takes(ty, v, true)
  {
    match v
    case VList(items) => FlatItems(items, skip);
    case VTuple(items) => FlatItems(items, skip);
    case VDict(entries) => FlatEntries(entries, skip);
  }

  lemma FlatFits(ty: Ty, v: Val, skip: bool)
    requires FlatTy(ty) && FlatLike(v, ty) && Plain(v)
    ensures HasType(v, ty, skip) <==> PartsFit(v, ty)
  {
    match ty
    case TList(elem) => ListFits(elem, v, skip);
    case TTuple(items) => TupleFits(items, v, skip);
    case TDict(key, item) => DictFits(key, item, v, skip);
  }

  lemma ScalarFits(ty: Ty, v: Val, skip: bool)
    requires ScalarTy(ty) && Scalar(v)
    ensures HasType(v, ty, skip) <==> IsInstance(v, ty)
  {
  }

  lemma ListFits(elem: Ty, v: Val, skip: bool)
    requires FlatTy(TList(elem)) && FlatLike(v, TList(elem))
    ensures HasType(v, TList(elem), skip) <==> PartsFit(v, TList(elem))
  {
    forall i | 0 <= i < |v.list| ensures HasType(v.list[i], elem, skip) <==> IsInstance(v.list[i], elem) {
      ScalarFits(elem, v.list[i], skip);
    }
    hide IsInstance, ScalarTy;
  }

  lemma TupleFits(items: seq<Ty>, v: Val, skip: bool)
    requires FlatTy(TTuple(items)) && FlatLike(v, TTuple(items))
    ensures HasType(v, TTuple(items), skip) <==> PartsFit(v, TTuple(items))
  {
    forall i | 0 <= i < |items| ensures HasType(v.tuple[i], items[i], skip) <==> IsInstance(v.tuple[i], items[i]) {
      ScalarFits(items[i], v.tuple[i], skip);
    }
    hide IsInstance, ScalarTy;
  }

  lemma DictFits(key: Ty, item: Ty, v: Val, skip: bool)
    requires FlatTy(TDict(key, item)) && FlatLike(v, TDict(key, item)) && Plain(v)
    ensures HasType(v, TDict(key, item), skip) <==> PartsFit(v, TDict(key, item))
  {
    forall i | 0 <= i < |v.entries|
      ensures HasType(v.entries[i].value, item, skip) <==> IsInstance(v.entries[i].value, item)
      ensures IsKey(v.entries[i].key, key) <==> IsInstance(v.entries[i].key, key)
    {
      ScalarFits(item, v.entries[i].value, skip);
    }
    hide IsInstance, ScalarTy, IsKey;
  }

  lemma {:induction false} FlatItems(items: seq<Val>, skip: bool)
    requires forall i :: 0 <= i < |items| ==> Scalar(items[i])
    ensures EncodeAll(items, skip) == Ok(items)
  {
    if items != [] {
      FlatItems(items[1..], skip);
      assert items == [items[0]] + items[1..];
    }
  }

  lemma {:induction false} FlatEntries(entries: seq<Entry>, skip: bool)
    requires forall i :: 0 <= i < |entries| ==> Scalar(entries[i].value)
    ensures EncodeEntries(entries, skip) == Ok(entries)
  {
    if entries != [] {
      FlatEntries(entries[1..], skip);
      assert EncodeEntry(entries[0], skip) == Ok(entries[0].value);
      assert entries == [entries[0]] + entries[1..];
    }
  }

  /** Every list of strings comes out of a union of list[int] and list[str], in this order, as a list of as many type
      objects; so the empty one alone survives. */
  lemma EarlierListArmSpoilsValue(strings: seq<string>, skip: bool)
    ensures var v, ty := VList(seq(|strings|, i requires 0 <= i < |strings| => VStr(strings[i]))), TUnion([TList(TInt), TList(TStr)]);
      && Encode(v, skip) == Ok(v)
      && Decode(ty, v, false) == Ok(VList(seq(|strings|, _ => VType("str"))))
      && (RoundTrips(v, ty, skip) <==> strings == [])
  {
    var items := seq(|strings|, i requires 0 <= i < |strings| => VStr(strings[i]));
    var v, arms := VList(items), [TList(TInt), TList(TStr)];
    FlatItems(items, skip);
    FirstContainerDecides(arms, v, skip);
    assert strings != [] ==> !IsInstance(v.list[0], TInt);
    DecodesToTypes(items);
    assert DecodeArms(arms, v, true) == Decode(arms[0], v, true);
  }

  lemma {:induction false} DecodesToTypes(items: seq<Val>)
    requires forall i :: 0 <= i < |items| ==> items[i].VStr?
    ensures DecodeAll(TList(TInt), items) == Ok(seq(|items|, _ => VType("str")))
  {
    if items != [] {
      DecodesToTypes(items[1..]);
      assert [VType("str")] + seq(|items| - 1, _ => VType("str")) == seq(|items|, _ => VType("str"));
      assert Decode(TList(TInt).elem, items[0], false) == Ok(VType("str"));
    } else {
      assert seq(0, _ => VType("str")) == [];
    }
  }
}
