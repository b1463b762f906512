/** What encoded and decoded values look like, whatever they were made from (shutils/param.py). */
module ParamShape {
  import opened Options
  import opened Params

  // ---------------------------------------------------------------- asdict

  /** Whether `asdict` shows the field at all: not a Hide value, not a name with an underscore in front when those
      are skipped. */
  predicate Shown(name: string, v: Val, skip: bool) { v != VHide && (skip ==> name == "" || name[0] != '_') }

  /** The shown fields of an instance, in the order of its class, with their values. */
  function ShownFields(fields: seq<Field>, vals: seq<Val>, skip: bool): seq<Entry>
    requires |fields| == |vals|
  {
    if |vals| == 0 then []
    else
      var rest := ShownFields(fields[1..], vals[1..], skip);
      if Shown(fields[0].name, vals[0], skip) then [Entry(VStr(fields[0].name), vals[0])] + rest else rest
  }

  /** An encoded instance has one key for each shown field, its name, in the order of the class, and under it the
      encoding of the field's value. */
  lemma {:induction false} EncodedKeys(fields: seq<Field>, vals: seq<Val>, skip: bool)
    requires |fields| == |vals| && EncodeFields(fields, vals, skip).Ok?
    ensures var es, shown := EncodeFields(fields, vals, skip).value, ShownFields(fields, vals, skip);
      && |es| == |shown|
      && forall i :: 0 <= i < |es| ==> es[i].key == shown[i].key && Encode(shown[i].value, skip) == Ok(es[i].value)
    decreases vals
  {
    if vals != [] {
      EncodedKeys(fields[1..], vals[1..], skip);
    }
  }

  /** Plain data: what `json.dumps` takes without help, down to the leaves. */
  predicate Flat(v: Val)
    decreases v
  {
    match v
    case VList(items) => forall i :: 0 <= i < |items| ==> Flat(items[i])
    case VTuple(items) => forall i :: 0 <= i < |items| ==> Flat(items[i])
    case VDict(entries) => forall i :: 0 <= i < |entries| ==> FlatEntry(entries[i])
    case _ => Scalar(v)
  }

  predicate FlatEntry(e: Entry)
    decreases e
  {
    Flat(e.value)
  }

  /** The enum members inside the value have scalar values. */
  predicate ScalarEnums(v: Val)
    decreases v
  {
    match v
    case VList(items) => forall i :: 0 <= i < |items| ==> ScalarEnums(items[i])
    case VTuple(items) => forall i :: 0 <= i < |items| ==> ScalarEnums(items[i])
    case VDict(entries) => forall i :: 0 <= i < |entries| ==> ScalarEnumsEntry(entries[i])
    case VData(_, vals) => forall i :: 0 <= i < |vals| ==> ScalarEnums(vals[i])
    case VEnum(e, m) => Member(v) ==> Scalar(e.members[m])
    case _ => true
  }

  predicate ScalarEnumsEntry(e: Entry)
    decreases e
  {
    ScalarEnums(e.value)
  }

  /** Nothing of classes and enums is left in the values of an encoding, at any depth. */
  lemma {:induction false} EncodedIsFlat(v: Val, skip: bool)
    requires ScalarEnums(v) && Encode(v, skip).Ok?
    ensures Flat(Encode(v, skip).value)
    decreases v
  {
    match v
    case VList(items) => ItemsAreFlat(items, skip);
    case VTuple(items) => ItemsAreFlat(items, skip);
    case VDict(entries) => EntriesAreFlat(entries, skip);
    case VData(c, vals) => FieldsAreFlat(c.fields, vals, skip);
    case _ =>
  }

  lemma {:induction false} ItemsAreFlat(vs: seq<Val>, skip: bool)
    requires (forall i :: 0 <= i < |vs| ==> ScalarEnums(vs[i])) && EncodeAll(vs, skip).Ok?
    ensures forall i :: 0 <= i < |EncodeAll(vs, skip).value| ==> Flat(EncodeAll(vs, skip).value[i])
    decreases vs
  {
    if vs != [] {
      EncodedIsFlat(vs[0], skip);
      ItemsAreFlat(vs[1..], skip);
    }
  }

  lemma EntryIsFlat(e: Entry, skip: bool)
    requires ScalarEnumsEntry(e) && EncodeEntry(e, skip).Ok?
    ensures Flat(EncodeEntry(e, skip).value)
    decreases e
  {
    EncodedIsFlat(e.value, skip);
  }

  lemma {:induction false} EntriesAreFlat(entries: seq<Entry>, skip: bool)
    requires (forall i :: 0 <= i < |entries| ==> ScalarEnumsEntry(entries[i])) && EncodeEntries(entries, skip).Ok?
    ensures forall i :: 0 <= i < |EncodeEntries(entries, skip).value| ==> FlatEntry(EncodeEntries(entries, skip).value[i])
    decreases entries
  {
    if entries != [] {
      EntryIsFlat(entries[0], skip);
      EntriesAreFlat(entries[1..], skip);
    }
  }

  lemma {:induction false} FieldsAreFlat(fields: seq<Field>, vals: seq<Val>, skip: bool)
    requires |fields| == |vals| && (forall i :: 0 <= i < |vals| ==> ScalarEnums(vals[i]))
    requires EncodeFields(fields, vals, skip).Ok?
    ensures forall i :: 0 <= i < |EncodeFields(fields, vals, skip).value| ==>
      FlatEntry(EncodeFields(fields, vals, skip).value[i])
    decreases vals
  {
    if vals != [] {
      if !Omitted(skip, fields[0], vals[0]) { EncodedIsFlat(vals[0], skip); }
      FieldsAreFlat(fields[1..], vals[1..], skip);
    }
  }

  // ---------------------------------------------------------------- dictionaries

  lemma {:induction false} SameBack(a: Val, b: Val)
    requires Same(a, b)
    ensures Same(b, a)
    decreases a
  {
    if a.VTuple? && b.VTuple? {
      forall i | 0 <= i < |a.tuple| ensures Same(b.tuple[i], a.tuple[i]) { SameBack(a.tuple[i], b.tuple[i]); }
    }
  }

  lemma {:induction false} SameOn(a: Val, b: Val, c: Val)
    requires Same(a, b) && Same(b, c)
    ensures Same(a, c)
    decreases a
  {
    if a.VTuple? && b.VTuple? && c.VTuple? {
      forall i | 0 <= i < |a.tuple| ensures Same(a.tuple[i], c.tuple[i]) {
        SameOn(a.tuple[i], b.tuple[i], c.tuple[i]);
      }
    }
  }

  lemma {:induction false} SameSelf(a: Val)
    ensures Same(a, a)
    decreases a
  {
    if a.VTuple? {
      forall i | 0 <= i < |a.tuple| ensures Same(a.tuple[i], a.tuple[i]) { SameSelf(a.tuple[i]); }
    }
  }

  /** `d[key] = value` as a dictionary law: the key has the new value, every other key the value it had. */
  lemma {:induction false} PutThenFind(entries: seq<Entry>, e: Entry, k: Val)
    ensures Find(Put(entries, e), k) == if Same(e.key, k) then Some(e.value) else Find(entries, k)
  {
    if entries != [] {
      var first := entries[0].key;
      if Same(first, e.key) {
        if Same(e.key, k) { SameOn(first, e.key, k); }
        if Same(first, k) { SameBack(first, e.key); SameOn(e.key, first, k); }
      } else {
        if Same(first, k) && Same(e.key, k) { SameBack(e.key, k); SameOn(first, k, e.key); }
        PutThenFind(entries[1..], e, k);
      }
    }
  }

  ghost predicate DifferentKeys(entries: seq<Entry>) {
    forall i, j :: 0 <= i < j < |entries| ==> !Same(entries[i].key, entries[j].key)
  }

  /** The keys of a dictionary after `d[key] = value`: those it had, and the new one behind them if it is new. */
  lemma {:induction false} PutKeys(entries: seq<Entry>, e: Entry)
    ensures var after := Put(entries, e);
      && |entries| <= |after| <= |entries| + 1
      && (forall i :: 0 <= i < |entries| ==> after[i].key == entries[i].key)
      && (forall i :: 0 <= i < |entries| ==> after[i] == entries[i] || (after[i].value == e.value && Same(after[i].key, e.key)))
      && (|after| > |entries| ==> after[|entries|] == e && forall i :: 0 <= i < |entries| ==> !Same(entries[i].key, e.key))
  {
    if entries != [] && !Same(entries[0].key, e.key) {
      PutKeys(entries[1..], e);
    }
  }

  lemma PutKeepsDifferent(entries: seq<Entry>, e: Entry)
    requires DifferentKeys(entries)
    ensures DifferentKeys(Put(entries, e))
  {
    PutKeys(entries, e);
  }

  // ---------------------------------------------------------------- dict_to_dataclass

  /** The scalar instances, type by type. */
  predicate ScalarOf(ty: Ty, v: Val) {
    (v.VInt? && ty == TInt) || (v.VBool? && ty in {TInt, TBool}) || (v.VFloat? && ty == TFloat)
    || (v.VStr? && ty == TStr) || (v == VNone && ty == TNone) || (v == VHide && ty == THide)
  }

  /** The type object of a value of a built-in type. */
  predicate Names(name: string, v: Val) {
    (v.VInt? && name == "int") || (v.VBool? && name == "bool") || (v.VFloat? && name == "float")
    || (v.VStr? && name == "str") || (v == VNone && name == "NoneType")
    || (v.VList? && name == "list") || (v.VTuple? && name == "tuple") || (v.VDict? && name == "dict")
  }

  /** At a scalar type: an instance is kept, strictly or not; anything else raises strictly, and otherwise leaves the
      type object of the value in its place. */
  lemma ScalarGives(ty: Ty, v: Val)
    requires ScalarTy(ty) && !v.VType?
    ensures Decode(ty, v, false) == Ok(v) <==> ScalarOf(ty, v)
    ensures ScalarOf(ty, v) ==> Decode(ty, v, true) == Decode(ty, v, false) == Ok(v)
    ensures !ScalarOf(ty, v) ==> Decode(ty, v, true).Raise? && Decode(ty, v, false).Ok?
    ensures forall name :: !ScalarOf(ty, v) && Names(name, v) ==> Decode(ty, v, false) == Ok(VType(name))
    ensures !ScalarOf(ty, v) && Member(v) ==> Decode(ty, v, false) == Ok(VType(v.enum.name))
    ensures !ScalarOf(ty, v) && Instance(v) ==> Decode(ty, v, false) == Ok(VType(v.cls.name))
  {
  }

  /** At an enum: one of its own members is kept; any other value gives the first member with a value equal to it. */
  lemma EnumGives(enum: Ty, v: Val, m: nat, strict: bool)
    requires enum.TEnum? && m < |enum.members| && !(v.VEnum? && v.enum == enum)
    ensures Decode(enum, v, strict) == Ok(VEnum(enum, m))
      <==> Same(enum.members[m], v) && forall j :: 0 <= j < m ==> !Same(enum.members[j], v)
  {
    FirstMember(enum, v, m, 0);
    assert Decode(enum, v, strict) == FindMember(enum, v, 0);
  }

  lemma {:induction false} FirstMember(enum: Ty, v: Val, m: nat, from: nat)
    requires enum.TEnum? && from <= |enum.members| && m < |enum.members| && !(v.VEnum? && v.enum == enum)
    ensures FindMember(enum, v, from) == Ok(VEnum(enum, m))
      <==> from <= m && Same(enum.members[m], v) && forall j :: from <= j < m ==> !Same(enum.members[j], v)
    decreases |enum.members| - from
  {
    if from < |enum.members| {
      FirstMember(enum, v, m, from + 1);
    }
  }

  /** What a decoded value can be: of the type in all its containers, classes and enums, with type objects possibly in
      the place of scalars and defaults in the place of fields. */
  ghost predicate Conforms(ty: Ty, v: Val)
    decreases ty, 1
  {
    match ty
    case TEnum(_, _) => v.VEnum? && v.enum == ty
    case TData(_, fields) =>
      && v.VData? && v.cls == ty && |v.vals| == |fields|
      && forall i :: 0 <= i < |fields| ==> FieldConforms(fields[i], v.vals[i])
    case TList(elem) => v.VList? && forall i :: 0 <= i < |v.list| ==> Conforms(elem, v.list[i])
    case TTuple(items) =>
      v.VTuple? && |v.tuple| == |items| && forall i :: 0 <= i < |items| ==> Conforms(items[i], v.tuple[i])
    case TDict(_, _) => v.VDict? && DifferentKeys(v.entries) && EntriesConform(ty, v.entries)
    case TUnion(arms) => exists i :: 0 <= i < |arms| && Conforms(arms[i], v)
    case _ => ScalarOf(ty, v) || v.VType?
  }

  ghost predicate FieldConforms(f: Field, v: Val)
    decreases f
  {
    f.default == Some(v) || Conforms(f.ty, v)
  }

  ghost predicate EntriesConform(ty: Ty, entries: seq<Entry>)
    requires ty.TDict?
    decreases ty, 0
  {
    forall i :: 0 <= i < |entries| ==>
      Conforms(ty.key, entries[i].key) && Hashable(entries[i].key) && Conforms(ty.item, entries[i].value)
  }

  /** Whatever data it is given, well-formed or not: the decoder raises or makes a value that conforms to the type. */
  lemma {:induction false} DecodedConforms(ty: Ty, v: Val, strict: bool)
    requires Decode(ty, v, strict).Ok?
    ensures Conforms(ty, Decode(ty, v, strict).value)
    decreases ty, 1, 0
  {
    match ty
    case TUnion(arms) => ArmsConform(arms, v, DecodeArms(arms, v, true).Ok?);
    case TList(_) => AllConform(ty, Iterate(v).value);
    case TDict(_, _) => EntriesMadeConform(ty, v.entries, []);
    case TTuple(tys) => EachConforms(tys, Iterate(v).value);
    case TData(_, fields) => FieldsConform(fields, v);
    case TEnum(_, _) => FindMemberGives(ty, v, 0);
    case _ =>
  }

  lemma {:induction false} ArmsConform(arms: seq<Ty>, v: Val, strict: bool)
    requires DecodeArms(arms, v, strict).Ok?
    ensures exists i :: 0 <= i < |arms| && Conforms(arms[i], DecodeArms(arms, v, strict).value)
    decreases arms, 0, 0
  {
    if Decode(arms[0], v, strict).Ok? {
      DecodedConforms(arms[0], v, strict);
    } else {
      ArmsConform(arms[1..], v, strict);
      var i :| 0 <= i < |arms| - 1 && Conforms(arms[1..][i], DecodeArms(arms, v, strict).value);
      assert arms[1..][i] == arms[i + 1];
    }
  }

  lemma {:induction false} AllConform(ty: Ty, items: seq<Val>)
    requires ty.TList? && DecodeAll(ty, items).Ok?
    ensures |DecodeAll(ty, items).value| == |items|
    ensures forall i :: 0 <= i < |items| ==> Conforms(ty.elem, DecodeAll(ty, items).value[i])
    decreases ty, 0, |items|
  {
    if items != [] {
      DecodedConforms(ty.elem, items[0], false);
      AllConform(ty, items[1..]);
    }
  }

  lemma {:induction false} EachConforms(tys: seq<Ty>, items: seq<Val>)
    requires |tys| == |items| && DecodeEach(tys, items).Ok?
    ensures |DecodeEach(tys, items).value| == |items|
    ensures forall i :: 0 <= i < |items| ==> Conforms(tys[i], DecodeEach(tys, items).value[i])
    decreases tys, 0, 0
  {
    if items != [] {
      DecodedConforms(tys[0], items[0], false);
      EachConforms(tys[1..], items[1..]);
    }
  }

  lemma {:induction false} FieldsConform(fields: seq<Field>, data: Val)
    requires DecodeFields(fields, data).Ok?
    ensures |DecodeFields(fields, data).value| == |fields|
    ensures forall i :: 0 <= i < |fields| ==> FieldConforms(fields[i], DecodeFields(fields, data).value[i])
    decreases fields, 0, 0
  {
    if fields != [] {
      OneFieldConforms(fields[0], data);
      FieldsConform(fields[1..], data);
    }
  }

  lemma OneFieldConforms(f: Field, data: Val)
    requires DecodeField(f, data).Ok?
    ensures FieldConforms(f, DecodeField(f, data).value)
    decreases f, 0, 0
  {
    if Lookup(data, f.name).value.Some? {
      DecodedConforms(f.ty, Lookup(data, f.name).value.value, false);
    }
  }

  lemma PutConforms(ty: Ty, made: seq<Entry>, e: Entry)
    requires ty.TDict? && EntriesConform(ty, made)
    requires Conforms(ty.key, e.key) && Hashable(e.key) && Conforms(ty.item, e.value)
    ensures EntriesConform(ty, Put(made, e))
  {
    hide Conforms, Hashable, Put, Same;
    PutKeys(made, e);
  }

  lemma {:induction false} EntriesMadeConform(ty: Ty, entries: seq<Entry>, made: seq<Entry>)
    requires ty.TDict? && DecodeEntries(ty, entries, made).Ok?
    requires DifferentKeys(made) && EntriesConform(ty, made)
    ensures var es := DecodeEntries(ty, entries, made).value; DifferentKeys(es) && EntriesConform(ty, es)
    decreases ty, 0, |entries|
  {
    hide Conforms, Hashable, Put, Decode, EntriesConform, DifferentKeys;
    if entries != [] {
      var k, d := Decode(ty.key, entries[0].key, false), Decode(ty.item, entries[0].value, false);
      DecodedConforms(ty.key, entries[0].key, false);
      DecodedConforms(ty.item, entries[0].value, false);
      PutKeepsDifferent(made, Entry(k.value, d.value));
      PutConforms(ty, made, Entry(k.value, d.value));
      EntriesMadeConform(ty, entries[1..], Put(made, Entry(k.value, d.value)));
    }
  }

  // ---------------------------------------------------------------- what a decoded dictionary holds

  /** The last entry whose key decodes to k, if there is one. */
  ghost predicate LastUnder(ty: Ty, entries: seq<Entry>, k: Val, i: int)
    requires ty.TDict?
  {
    && -1 <= i < |entries|
    && (i >= 0 ==> Decode(ty.key, entries[i].key, false).Ok? && Same(Decode(ty.key, entries[i].key, false).value, k))
    && forall j :: i < j < |entries| && Decode(ty.key, entries[j].key, false).Ok? ==>
         !Same(Decode(ty.key, entries[j].key, false).value, k)
  }

  /** A decoded dictionary has under every key the decoded value of the last entry whose key decodes to that. */
  lemma {:induction false} LaterKeysWin(ty: Ty, entries: seq<Entry>, made: seq<Entry>, k: Val, i: int)
    requires ty.TDict? && DecodeEntries(ty, entries, made).Ok? && LastUnder(ty, entries, k, i)
    ensures i < 0 ==> Find(DecodeEntries(ty, entries, made).value, k) == Find(made, k)
    ensures i >= 0 ==> exists x ::
      Decode(ty.item, entries[i].value, false) == Ok(x) && Find(DecodeEntries(ty, entries, made).value, k) == Some(x)
    decreases |entries|
  {
    if entries != [] {
      var e := Entry(Decode(ty.key, entries[0].key, false).value, Decode(ty.item, entries[0].value, false).value);
      PutThenFind(made, e, k);
      assert forall j :: 1 <= j < |entries| ==> entries[j] == entries[1..][j - 1];
      LaterKeysWin(ty, entries[1..], Put(made, e), k, if i < 0 then -1 else i - 1);
    }
  }

  /** Data that is no dictionary makes an instance exactly when every field has a default and no field name is among
      the items of the list or tuple, or stands in the string; other data fails on the first field. */
  lemma {:induction false} FromOtherData(fields: seq<Field>, data: Val)
    requires !data.VDict?
    ensures DecodeFields(fields, data).Ok? <==> forall i :: 0 <= i < |fields| ==>
      && fields[i].default.Some?
      && (|| (data.VList? && VStr(fields[i].name) !in data.list)
          || (data.VTuple? && VStr(fields[i].name) !in data.tuple)
          || (data.VStr? && forall k :: 0 <= k <= |data.s| ==> !StandsAt(fields[i].name, data.s, k)))
    ensures DecodeFields(fields, data).Ok? ==> |DecodeFields(fields, data).value| == |fields|
    ensures DecodeFields(fields, data).Ok? ==>
      forall i :: 0 <= i < |fields| ==> fields[i].default == Some(DecodeFields(fields, data).value[i])
    decreases |fields|
  {
    if fields != [] {
      FromOtherData(fields[1..], data);
    }
  }

  /** A string at a list of strings becomes the list of its characters. */
  lemma StringGivesCharacters(s: string, strict: bool)
    ensures Decode(TList(TStr), VStr(s), strict).Ok?
    ensures var r := Decode(TList(TStr), VStr(s), strict).value;
      r.VList? && |r.list| == |s| && forall i :: 0 <= i < |s| ==> r.list[i] == VStr([s[i]])
  {
    StringsAreKept(Iterate(VStr(s)).value);
  }

  lemma {:induction false} StringsAreKept(items: seq<Val>)
    requires forall i :: 0 <= i < |items| ==> items[i].VStr?
    ensures DecodeAll(TList(TStr), items) == Ok(items)
  {
    if items != [] {
      StringsAreKept(items[1..]);
      assert Decode(TList(TStr).elem, items[0], false) == Ok(items[0]);
      assert items == [items[0]] + items[1..];
    }
  }
}
