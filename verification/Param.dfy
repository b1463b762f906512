/** Dataclass values to plain data and back (shutils/param.py). */
module Params {
  import opened Options

  // ---------------------------------------------------------------- types and values

  datatype Ty =
    | TInt | TBool | TFloat | TStr | TNone | THide
    | TEnum(name: string, members: seq<Val>)
    | TData(name: string, fields: seq<Field>)
    | TList(elem: Ty)
    | TDict(key: Ty, item: Ty)
    | TTuple(items: seq<Ty>)
    | TUnion(arms: seq<Ty>)

  datatype Field = Field(name: string, ty: Ty, default: Option<Val>)

  /** Values, plain data among them. An enum member is its class and position; a dataclass instance its
      class and the values of its fields; VType is a type object. */
  datatype Val =
    | VInt(i: int) | VBool(b: bool) | VFloat(r: real) | VStr(s: string) | VNone | VHide
    | VEnum(enum: Ty, member: nat)
    | VData(cls: Ty, vals: seq<Val>)
    | VList(list: seq<Val>)
    | VTuple(tuple: seq<Val>)
    | VDict(entries: seq<Entry>)
    | VType(name: string)

  datatype Entry = Entry(key: Val, value: Val)

  datatype Result<+T> = Ok(value: T) | Raise

  predicate Scalar(v: Val) { v.VInt? || v.VBool? || v.VFloat? || v.VStr? || v.VNone? }

  /** TNone is NoneType, as Optional and unions carry it. */
  predicate ScalarTy(ty: Ty) { ty.TInt? || ty.TBool? || ty.TFloat? || ty.TStr? || ty.TNone? || ty.THide? }

  /** `isinstance(value, type)`; a bool is an int. */
  predicate IsInstance(v: Val, ty: Ty) {
    match ty
    case TInt => v.VInt? || v.VBool?
    case TBool => v.VBool?
    case TFloat => v.VFloat?
    case TStr => v.VStr?
    case TNone => v.VNone?
    case THide => v.VHide?
    case _ => false
  }

  /** `type(value)` */
  function TypeOf(v: Val): Val {
    match v
    case VInt(_) => VType("int")
    case VBool(_) => VType("bool")
    case VFloat(_) => VType("float")
    case VStr(_) => VType("str")
    case VNone => VType("NoneType")
    case VHide => VType("Hide")
    case VEnum(e, _) => if e.TEnum? then VType(e.name) else VType("Enum")
    case VData(c, _) => if c.TData? then VType(c.name) else VType("object")
    case VList(_) => VType("list")
    case VTuple(_) => VType("tuple")
    case VDict(_) => VType("dict")
    case VType(_) => VType("type")
  }

  function Number(v: Val): Option<real> {
    match v
    case VInt(i) => Some(i as real)
    case VBool(b) => Some(if b then 1.0 else 0.0)
    case VFloat(r) => Some(r)
    case _ => None
  }

  /** Python's `==` on what can be a dictionary key or the value of an enum member: 1 == True == 1.0. */
  predicate Same(a: Val, b: Val) {
    if a.VTuple? && b.VTuple? then
      |a.tuple| == |b.tuple| && forall i :: 0 <= i < |a.tuple| ==> Same(a.tuple[i], b.tuple[i])
    else if Number(a).Some? && Number(b).Some? then Number(a) == Number(b)
    else a == b
  }

  predicate Hashable(v: Val) {
    match v
    case VList(_) => false
    case VDict(_) => false
    case VData(_, _) => false
    case VTuple(items) => forall i :: 0 <= i < |items| ==> Hashable(items[i])
    case _ => true
  }

  // ---------------------------------------------------------------- asdict

  predicate Private(name: string) { |name| > 0 && name[0] == '_' }

  /** Whether `asdict` leaves the field out. */
  predicate Omitted(skipPrivate: bool, f: Field, v: Val) { (skipPrivate && Private(f.name)) || v.VHide? }

  predicate Instance(v: Val) { v.VData? && v.cls.TData? && |v.cls.fields| == |v.vals| }

  predicate Member(v: Val) { v.VEnum? && v.enum.TEnum? && v.member < |v.enum.members| }

  /** `asdict_internal` */
  function Encode(v: Val, skip: bool): Result<Val>
    decreases v
  {
    match v
    case VList(items) => (match EncodeAll(items, skip) case Raise => Raise case Ok(es) => Ok(VList(es)))
    case VTuple(items) => (match EncodeAll(items, skip) case Raise => Raise case Ok(es) => Ok(VTuple(es)))
    case VDict(entries) => (match EncodeEntries(entries, skip) case Raise => Raise case Ok(es) => Ok(VDict(es)))
    case VEnum(e, m) => if Member(v) then Ok(e.members[m]) else Raise
    case VData(c, vals) =>
      if !Instance(v) then Raise
      else (match EncodeFields(c.fields, vals, skip) case Raise => Raise case Ok(es) => Ok(VDict(es)))
    case VHide => Raise
    case VType(_) => Raise
    case _ => Ok(v)
  }

  function EncodeAll(vs: seq<Val>, skip: bool): Result<seq<Val>>
    decreases vs
  {
    if |vs| == 0 then Ok([])
    else
      match Encode(vs[0], skip)
      case Raise => Raise
      case Ok(e) => match EncodeAll(vs[1..], skip) case Raise => Raise case Ok(es) => Ok([e] + es)
  }

  function EncodeEntry(e: Entry, skip: bool): Result<Val>
    decreases e
  {
    Encode(e.value, skip)
  }

  /** Values are encoded, keys are kept as they are. */
  function EncodeEntries(entries: seq<Entry>, skip: bool): Result<seq<Entry>>
    decreases entries
  {
    if |entries| == 0 then Ok([])
    else
      match EncodeEntry(entries[0], skip)
      case Raise => Raise
      case Ok(e) =>
        match EncodeEntries(entries[1..], skip) case Raise => Raise case Ok(es) => Ok([Entry(entries[0].key, e)] + es)
  }

  function EncodeFields(fields: seq<Field>, vals: seq<Val>, skip: bool): Result<seq<Entry>>
    requires |fields| == |vals|
    decreases vals
  {
    if |vals| == 0 then Ok([])
    else if Omitted(skip, fields[0], vals[0]) then EncodeFields(fields[1..], vals[1..], skip)
    else
      match Encode(vals[0], skip)
      case Raise => Raise
      case Ok(e) =>
        match EncodeFields(fields[1..], vals[1..], skip)
        case Raise => Raise
        case Ok(es) => Ok([Entry(VStr(fields[0].name), e)] + es)
  }

  // ---------------------------------------------------------------- dict_to_dataclass

  /** What a `for` loop over a value goes through: list items, characters, dictionary keys. */
  function Iterate(v: Val): Result<seq<Val>> {
    match v
    case VList(items) => Ok(items)
    case VTuple(items) => Ok(items)
    case VStr(s) => Ok(seq(|s|, i requires 0 <= i < |s| => VStr([s[i]])))
    case VDict(entries) => Ok(seq(|entries|, i requires 0 <= i < |entries| => entries[i].key))
    case _ => Raise
  }

  predicate StandsAt(a: string, b: string, i: nat) { i + |a| <= |b| && b[i..i + |a|] == a }

  predicate Substring(a: string, b: string) { exists i :: 0 <= i <= |b| && StandsAt(a, b, i) }

  /** `name in data`, then `data[name]`. */
  function Lookup(data: Val, name: string): Result<Option<Val>> {
    match data
    case VDict(entries) => Ok(Find(entries, VStr(name)))
    case VList(items) => if VStr(name) in items then Raise else Ok(None)
    case VTuple(items) => if VStr(name) in items then Raise else Ok(None)
    case VStr(s) => if Substring(name, s) then Raise else Ok(None)
    case _ => Raise
  }

  function Find(entries: seq<Entry>, key: Val): Option<Val> {
    if |entries| == 0 then None
    else if Same(entries[0].key, key) then Some(entries[0].value)
    else Find(entries[1..], key)
  }

  /** `d[key] = value` */
  function Put(entries: seq<Entry>, e: Entry): seq<Entry> {
    if |entries| == 0 then [e]
    else if Same(entries[0].key, e.key) then [Entry(entries[0].key, e.value)] + entries[1..]
    else [entries[0]] + Put(entries[1..], e)
  }

  /** The enum member with that value, or the member itself. */
  function FindMember(enum: Ty, v: Val, from: nat): Result<Val>
    requires enum.TEnum?
    decreases |enum.members| - from
  {
    if v.VEnum? && v.enum == enum then Ok(v)
    else if from >= |enum.members| then Raise
    else if Same(enum.members[from], v) then Ok(VEnum(enum, from))
    else FindMember(enum, v, from + 1)
  }

  /** `process_value` */
  function Decode(ty: Ty, v: Val, strict: bool): Result<Val>
    decreases ty, 1, 0
  {
    match ty
    case TUnion(arms) =>
      var first := DecodeArms(arms, v, true);
      if first.Ok? then first else DecodeArms(arms, v, false)
    case TList(_) =>
      (match Iterate(v)
       case Raise => Raise
       case Ok(items) => match DecodeAll(ty, items) case Raise => Raise case Ok(ds) => Ok(VList(ds)))
    case TDict(_, _) =>
      if !v.VDict? then Raise
      else (match DecodeEntries(ty, v.entries, []) case Raise => Raise case Ok(es) => Ok(VDict(es)))
    case TTuple(tys) =>
      (match Iterate(v)
       case Raise => Raise
       case Ok(items) =>
         if |tys| != |items| then Raise
         else match DecodeEach(tys, items) case Raise => Raise case Ok(ds) => Ok(VTuple(ds)))
    case TData(_, fields) => (match DecodeFields(fields, v) case Raise => Raise case Ok(vals) => Ok(VData(ty, vals)))
    case TEnum(_, _) => FindMember(ty, v, 0)
    case _ =>
      if IsInstance(v, ty) then Ok(v)
      else if strict then Raise
      else Ok(TypeOf(v))
  }

  /** One pass over the arms of a union: the first that does not raise. */
  function DecodeArms(arms: seq<Ty>, v: Val, strict: bool): Result<Val>
    decreases arms, 0, 0
  {
    if |arms| == 0 then Raise
    else
      var d := Decode(arms[0], v, strict);
      if d.Ok? then d else DecodeArms(arms[1..], v, strict)
  }

  /** The items of a list, each at the element type and not strictly. */
  function DecodeAll(ty: Ty, items: seq<Val>): Result<seq<Val>>
    requires ty.TList?
    decreases ty, 0, |items|
  {
    if |items| == 0 then Ok([])
    else
      match Decode(ty.elem, items[0], false)
      case Raise => Raise
      case Ok(d) => match DecodeAll(ty, items[1..]) case Raise => Raise case Ok(ds) => Ok([d] + ds)
  }

  function DecodeEach(tys: seq<Ty>, items: seq<Val>): Result<seq<Val>>
    requires |tys| == |items|
    decreases tys, 0, 0
  {
    if |items| == 0 then Ok([])
    else
      match Decode(tys[0], items[0], false)
      case Raise => Raise
      case Ok(d) => match DecodeEach(tys[1..], items[1..]) case Raise => Raise case Ok(ds) => Ok([d] + ds)
  }

  /** The entries of a dictionary, put one by one into the new one. */
  function DecodeEntries(ty: Ty, entries: seq<Entry>, made: seq<Entry>): Result<seq<Entry>>
    requires ty.TDict?
    decreases ty, 0, |entries|
  {
    if |entries| == 0 then Ok(made)
    else
      var k, d := Decode(ty.key, entries[0].key, false), Decode(ty.item, entries[0].value, false);
      if k.Raise? || d.Raise? || !Hashable(k.value) then Raise
      else DecodeEntries(ty, entries[1..], Put(made, Entry(k.value, d.value)))
  }

  /** The value of one field of the new instance: found and decoded, or else its default. */
  function DecodeField(f: Field, data: Val): Result<Val>
    decreases f, 0, 0
  {
    match Lookup(data, f.name)
    case Raise => Raise
    case Ok(None) => if f.default.Some? then Ok(f.default.value) else Raise
    case Ok(Some(x)) => Decode(f.ty, x, false)
  }

  /** `dict_to_dataclass` */
  function DecodeFields(fields: seq<Field>, data: Val): Result<seq<Val>>
    decreases fields, 0, 0
  {
    if |fields| == 0 then Ok([])
    else
      match DecodeField(fields[0], data)
      case Raise => Raise
      case Ok(d) => match DecodeFields(fields[1..], data) case Raise => Raise case Ok(ds) => Ok([d] + ds)
  }

  // ---------------------------------------------------------------- well-typed values

  /** Class definitions as Python has them: field names differ, members of an enum have different values. */
  predicate GoodTy(ty: Ty) {
    match ty
    case TEnum(_, members) =>
      && (forall i :: 0 <= i < |members| ==> Scalar(members[i]))
      && (forall i, j :: 0 <= i < j < |members| ==> !Same(members[i], members[j]))
    case TData(_, fields) =>
      && (forall i :: 0 <= i < |fields| ==> GoodTy(fields[i].ty))
      && (forall i, j :: 0 <= i < j < |fields| ==> fields[i].name != fields[j].name)
    case TList(elem) => GoodTy(elem)
    case TDict(key, item) => (ScalarTy(key) || key.TEnum?) && GoodTy(item)
    case TTuple(items) => forall i :: 0 <= i < |items| ==> GoodTy(items[i])
    case TUnion(arms) => forall i :: 0 <= i < |arms| ==> GoodTy(arms[i])
    case _ => true
  }

  predicate IsKey(k: Val, ty: Ty) {
    (Scalar(k) && IsInstance(k, ty)) || (ty.TEnum? && Member(k) && k.enum == ty)
  }

  /** Whether the decoder takes a value, said of the type and the value alone: scalar types take everything unless
      they are asked strictly, containers look at the shape and never ask their parts strictly. */
  ghost predicate Takes(ty: Ty, v: Val, strict: bool)
    decreases ty
  {
    match ty
    case TEnum(_, members) => (v.VEnum? && v.enum == ty) || exists m :: 0 <= m < |members| && Same(members[m], v)
    case TList(elem) => Iterate(v).Ok? && forall i :: 0 <= i < |Iterate(v).value| ==> Takes(elem, Iterate(v).value[i], false)
    case TTuple(items) =>
      && Iterate(v).Ok? && |Iterate(v).value| == |items|
      && forall i :: 0 <= i < |items| ==> Takes(items[i], Iterate(v).value[i], false)
    case TDict(key, item) =>
      && v.VDict?
      && forall i :: 0 <= i < |v.entries| ==> Takes(key, v.entries[i].key, false) && Takes(item, v.entries[i].value, false)
    case TData(_, fields) => forall i :: 0 <= i < |fields| ==> FieldTaken(fields[i], v)
    case TUnion(arms) => exists i :: 0 <= i < |arms| && Takes(arms[i], v, false)
    case _ => !strict || IsInstance(v, ty)
  }

  ghost predicate FieldTaken(f: Field, v: Val)
    decreases f
  {
    match Lookup(v, f.name)
    case Raise => false
    case Ok(None) => f.default.Some?
    case Ok(Some(x)) => Takes(f.ty, x, false)
  }

  /** No earlier arm of the union takes the encoded value in the strict pass. */
  ghost predicate FirstToAccept(arms: seq<Ty>, i: nat, e: Val) {
    i < |arms| && forall j :: 0 <= j < i ==> !Takes(arms[j], e, true)
  }

  ghost predicate HasType(v: Val, ty: Ty, skip: bool)
    decreases ty
  {
    match ty
    case TEnum(_, _) => Member(v) && v.enum == ty
    case TData(_, fields) =>
      && Instance(v) && v.cls == ty
      && (forall i :: 0 <= i < |fields| ==>
            if Omitted(skip, fields[i], v.vals[i]) then fields[i].default.Some? else HasType(v.vals[i], fields[i].ty, skip))
    case TList(elem) => v.VList? && forall i :: 0 <= i < |v.list| ==> HasType(v.list[i], elem, skip)
    case TTuple(items) =>
      v.VTuple? && |v.tuple| == |items| && forall i :: 0 <= i < |items| ==> HasType(v.tuple[i], items[i], skip)
    case TDict(key, item) =>
      && v.VDict?
      && (forall i :: 0 <= i < |v.entries| ==> IsKey(v.entries[i].key, key) && HasType(v.entries[i].value, item, skip))
      && (forall i, j :: 0 <= i < j < |v.entries| ==> !Same(v.entries[i].key, v.entries[j].key))
    case TUnion(arms) =>
      exists i :: 0 <= i < |arms| && HasType(v, arms[i], skip) &&
        (Encode(v, skip).Ok? ==> FirstToAccept(arms, i, Encode(v, skip).value))
    case _ => Scalar(v) && IsInstance(v, ty)
  }

  /** The value with every omitted field at its default, at any depth. */
  function Restored(v: Val, skip: bool): Val
    decreases v
  {
    match v
    case VList(items) => VList(RestoredAll(items, skip))
    case VTuple(items) => VTuple(RestoredAll(items, skip))
    case VDict(entries) => VDict(RestoredEntries(entries, skip))
    case VData(c, vals) => if Instance(v) then VData(c, RestoredFields(c.fields, vals, skip)) else v
    case _ => v
  }

  function RestoredAll(vs: seq<Val>, skip: bool): seq<Val>
    decreases vs
  {
    if |vs| == 0 then [] else [Restored(vs[0], skip)] + RestoredAll(vs[1..], skip)
  }

  function RestoredEntry(e: Entry, skip: bool): Entry
    decreases e
  {
    Entry(e.key, Restored(e.value, skip))
  }

  function RestoredEntries(entries: seq<Entry>, skip: bool): seq<Entry>
    decreases entries
  {
    if |entries| == 0 then [] else [RestoredEntry(entries[0], skip)] + RestoredEntries(entries[1..], skip)
  }

  function RestoredFields(fields: seq<Field>, vals: seq<Val>, skip: bool): seq<Val>
    requires |fields| == |vals|
    decreases vals
  {
    if |vals| == 0 then []
    else
      var first :=
        if !Omitted(skip, fields[0], vals[0]) then Restored(vals[0], skip)
        else if fields[0].default.Some? then fields[0].default.value
        else vals[0];
      [first] + RestoredFields(fields[1..], vals[1..], skip)
  }

  // ---------------------------------------------------------------- round trip

  ghost predicate RoundTrips(v: Val, ty: Ty, skip: bool) {
    && Encode(v, skip).Ok?
    && forall strict :: Decode(ty, Encode(v, skip).value, strict) == Ok(Restored(v, skip))
  }

  lemma {:induction false} FindMemberAt(enum: Ty, m: nat, from: nat)
    requires enum.TEnum? && GoodTy(enum) && from <= m < |enum.members|
    ensures FindMember(enum, enum.members[m], from) == Ok(VEnum(enum, m))
    decreases m - from
  {
    assert Scalar(enum.members[m]);
    if from < m {
      assert !Same(enum.members[from], enum.members[m]);
      FindMemberAt(enum, m, from + 1);
    }
  }

  ghost predicate FirstToDecode(arms: seq<Ty>, i: nat, e: Val) {
    i < |arms| && forall j :: 0 <= j < i ==> Decode(arms[j], e, true).Raise?
  }

  lemma {:induction false} UnionTrip(v: Val, arms: seq<Ty>, skip: bool, i: nat)
    requires i < |arms| && RoundTrips(v, arms[i], skip) && FirstToDecode(arms, i, Encode(v, skip).value)
    ensures DecodeArms(arms, Encode(v, skip).value, true) == Ok(Restored(v, skip))
    decreases i
  {
    if i > 0 {
      assert forall j :: 0 <= j < i - 1 ==> arms[1..][j] == arms[j + 1];
      UnionTrip(v, arms[1..], skip, i - 1);
    }
  }

  lemma {:induction false} ItemsTrip(vs: seq<Val>, ty: Ty, skip: bool)
    requires ty.TList? && forall i :: 0 <= i < |vs| ==> RoundTrips(vs[i], ty.elem, skip)
    ensures EncodeAll(vs, skip).Ok?
    ensures DecodeAll(ty, EncodeAll(vs, skip).value) == Ok(RestoredAll(vs, skip))
  {
    if vs != [] {
      ItemsTrip(vs[1..], ty, skip);
      assert RoundTrips(vs[0], ty.elem, skip);
      var es := EncodeAll(vs[1..], skip).value;
      assert ([Encode(vs[0], skip).value] + es)[1..] == es;
    }
  }

  lemma {:induction false} TupleTrip(vs: seq<Val>, tys: seq<Ty>, skip: bool)
    requires |vs| == |tys| && forall i :: 0 <= i < |vs| ==> RoundTrips(vs[i], tys[i], skip)
    ensures EncodeAll(vs, skip).Ok? && |EncodeAll(vs, skip).value| == |vs|
    ensures DecodeEach(tys, EncodeAll(vs, skip).value) == Ok(RestoredAll(vs, skip))
  {
    if vs != [] {
      TupleTrip(vs[1..], tys[1..], skip);
      assert RoundTrips(vs[0], tys[0], skip);
      var es := EncodeAll(vs[1..], skip).value;
      assert ([Encode(vs[0], skip).value] + es)[1..] == es;
    }
  }

  lemma {:induction false} PutNew(made: seq<Entry>, e: Entry)
    requires forall i :: 0 <= i < |made| ==> !Same(made[i].key, e.key)
    ensures Put(made, e) == made + [e]
  {
    if made != [] {
      PutNew(made[1..], e);
      assert made == [made[0]] + made[1..];
    }
  }

  /** A key is not encoded, and decoding leaves it as it is. */
  lemma KeyKept(k: Val, ty: Ty)
    requires IsKey(k, ty) && (ScalarTy(ty) || ty.TEnum?)
    ensures Decode(ty, k, false) == Ok(k) && Hashable(k)
  {
  }

  ghost predicate FreshKeys(made: seq<Entry>, entries: seq<Entry>) {
    && (forall i, j :: 0 <= i < |made| && 0 <= j < |entries| ==> !Same(made[i].key, entries[j].key))
    && (forall i, j :: 0 <= i < j < |entries| ==> !Same(entries[i].key, entries[j].key))
  }

  ghost predicate EntryTrips(e: Entry, ty: Ty, skip: bool)
    requires ty.TDict?
  {
    IsKey(e.key, ty.key) && RoundTrips(e.value, ty.item, skip)
  }

  lemma EntryKept(e: Entry, ty: Ty, skip: bool)
    requires ty.TDict? && (ScalarTy(ty.key) || ty.key.TEnum?) && EntryTrips(e, ty, skip)
    ensures Decode(ty.key, e.key, false) == Ok(e.key) && Hashable(e.key)
    ensures Encode(e.value, skip).Ok? && Decode(ty.item, Encode(e.value, skip).value, false) == Ok(Restored(e.value, skip))
  {
    hide Decode, Encode, Restored;
    KeyKept(e.key, ty.key);
  }

  lemma {:induction false} DictTrip(entries: seq<Entry>, ty: Ty, skip: bool, made: seq<Entry>)
    requires ty.TDict? && (ScalarTy(ty.key) || ty.key.TEnum?) && FreshKeys(made, entries)
    requires forall i :: 0 <= i < |entries| ==> EntryTrips(entries[i], ty, skip)
    ensures EncodeEntries(entries, skip).Ok?
    ensures DecodeEntries(ty, EncodeEntries(entries, skip).value, made) == Ok(made + RestoredEntries(entries, skip))
    decreases |entries|
  {
    if entries == [] {
      assert made + [] == made;
    } else {
      var e := entries[0];
      assert EntryTrips(e, ty, skip);
      EntryKept(e, ty, skip);
      hide RoundTrips, EntryTrips, Decode, Encode, Restored, Hashable, IsKey, ScalarTy;
      var r := RestoredEntry(e, skip);
      PutNew(made, r);
      DictTrip(entries[1..], ty, skip, made + [r]);
      var es := EncodeEntries(entries[1..], skip).value;
      assert ([Entry(e.key, Encode(e.value, skip).value)] + es)[1..] == es;
      assert made + [r] + RestoredEntries(entries[1..], skip) == made + RestoredEntries(entries, skip);
    }
  }

  // ---------------------------------------------------------------- dataclasses

  ghost predicate FieldTrips(f: Field, v: Val, skip: bool) {
    if Omitted(skip, f, v) then f.default.Some? else RoundTrips(v, f.ty, skip)
  }

  lemma {:induction false} FieldsEncode(fields: seq<Field>, vals: seq<Val>, skip: bool)
    requires |fields| == |vals| && forall i :: 0 <= i < |vals| ==> FieldTrips(fields[i], vals[i], skip)
    ensures EncodeFields(fields, vals, skip).Ok?
  {
    if vals != [] {
      assert FieldTrips(fields[0], vals[0], skip);
      FieldsEncode(fields[1..], vals[1..], skip);
    }
  }

  lemma {:induction false} FindAbsent(fields: seq<Field>, vals: seq<Val>, skip: bool, name: string)
    requires |fields| == |vals| && EncodeFields(fields, vals, skip).Ok?
    requires forall i :: 0 <= i < |fields| ==> fields[i].name != name
    ensures Find(EncodeFields(fields, vals, skip).value, VStr(name)) == None
  {
    if vals != [] {
      FindAbsent(fields[1..], vals[1..], skip, name);
      if !Omitted(skip, fields[0], vals[0]) {
        var es := EncodeFields(fields, vals, skip).value;
        assert es[1..] == EncodeFields(fields[1..], vals[1..], skip).value;
      }
    }
  }

  /** In the encoded instance every field is found under its name, unless it was left out. */
  lemma {:induction false} FindField(fields: seq<Field>, vals: seq<Val>, skip: bool, k: nat)
    requires |fields| == |vals| && k < |vals| && EncodeFields(fields, vals, skip).Ok?
    requires forall i, j :: 0 <= i < j < |fields| ==> fields[i].name != fields[j].name
    ensures Omitted(skip, fields[k], vals[k]) || Encode(vals[k], skip).Ok?
    ensures Find(EncodeFields(fields, vals, skip).value, VStr(fields[k].name))
         == if Omitted(skip, fields[k], vals[k]) then None else Some(Encode(vals[k], skip).value)
    decreases k
  {
    var es, rest := EncodeFields(fields, vals, skip).value, EncodeFields(fields[1..], vals[1..], skip).value;
    assert !Omitted(skip, fields[0], vals[0]) ==> es[1..] == rest;
    if k == 0 {
      FindAbsent(fields[1..], vals[1..], skip, fields[0].name);
    } else {
      FindField(fields[1..], vals[1..], skip, k - 1);
    }
  }

  ghost predicate FieldFound(f: Field, v: Val, skip: bool, data: Val) {
    && (Omitted(skip, f, v) || Encode(v, skip).Ok?)
    && Lookup(data, f.name) == Ok(if Omitted(skip, f, v) then None else Some(Encode(v, skip).value))
  }

  function RestoredField(f: Field, v: Val, skip: bool): Val {
    if !Omitted(skip, f, v) then Restored(v, skip) else if f.default.Some? then f.default.value else v
  }

  lemma FieldDecodes(f: Field, v: Val, skip: bool, data: Val)
    requires FieldTrips(f, v, skip) && FieldFound(f, v, skip, data)
    ensures DecodeField(f, data) == Ok(RestoredField(f, v, skip))
  {
  }

  lemma {:induction false} FieldsDecode(fields: seq<Field>, vals: seq<Val>, skip: bool, data: Val)
    requires |fields| == |vals|
    requires forall i :: 0 <= i < |vals| ==> FieldTrips(fields[i], vals[i], skip) && FieldFound(fields[i], vals[i], skip, data)
    ensures DecodeFields(fields, data) == Ok(RestoredFields(fields, vals, skip))
  {
    if vals != [] {
      FieldDecodes(fields[0], vals[0], skip, data);
      FieldsDecode(fields[1..], vals[1..], skip, data);
    }
  }

  lemma DataTrip(v: Val, ty: Ty, skip: bool)
    requires ty.TData? && GoodTy(ty) && Instance(v) && v.cls == ty
    requires forall i :: 0 <= i < |v.vals| ==> FieldTrips(ty.fields[i], v.vals[i], skip)
    ensures RoundTrips(v, ty, skip)
  {
    FieldsEncode(ty.fields, v.vals, skip);
    var data := VDict(EncodeFields(ty.fields, v.vals, skip).value);
    forall i | 0 <= i < |v.vals| ensures FieldFound(ty.fields[i], v.vals[i], skip, data) {
      FindField(ty.fields, v.vals, skip, i);
    }
    FieldsDecode(ty.fields, v.vals, skip, data);
  }

  // ---------------------------------------------------------------- what the decoder takes

  lemma {:induction false} AllTakenIff(ty: Ty, items: seq<Val>)
    requires ty.TList?
    ensures DecodeAll(ty, items).Ok? <==> forall i :: 0 <= i < |items| ==> Decode(ty.elem, items[i], false).Ok?
    ensures DecodeAll(ty, items).Ok? ==> |DecodeAll(ty, items).value| == |items|
    ensures DecodeAll(ty, items).Ok? ==>
      forall i :: 0 <= i < |items| ==> Decode(ty.elem, items[i], false) == Ok(DecodeAll(ty, items).value[i])
    decreases |items|
  {
    if items != [] {
      AllTakenIff(ty, items[1..]);
      assert forall i :: 1 <= i < |items| ==> items[i] == items[1..][i - 1];
    }
  }

  lemma {:induction false} EachTakenIff(tys: seq<Ty>, items: seq<Val>)
    requires |tys| == |items|
    ensures DecodeEach(tys, items).Ok? <==> forall i :: 0 <= i < |items| ==> Decode(tys[i], items[i], false).Ok?
    ensures DecodeEach(tys, items).Ok? ==> |DecodeEach(tys, items).value| == |items|
    ensures DecodeEach(tys, items).Ok? ==>
      forall i :: 0 <= i < |items| ==> Decode(tys[i], items[i], false) == Ok(DecodeEach(tys, items).value[i])
    decreases |items|
  {
    if items != [] {
      EachTakenIff(tys[1..], items[1..]);
      assert forall i :: 1 <= i < |items| ==> items[i] == items[1..][i - 1] && tys[i] == tys[1..][i - 1];
    }
  }

  lemma {:induction false} FieldsTakenIff(fields: seq<Field>, data: Val)
    ensures DecodeFields(fields, data).Ok? <==> forall i :: 0 <= i < |fields| ==> DecodeField(fields[i], data).Ok?
    ensures DecodeFields(fields, data).Ok? ==> |DecodeFields(fields, data).value| == |fields|
    ensures DecodeFields(fields, data).Ok? ==>
      forall i :: 0 <= i < |fields| ==> DecodeField(fields[i], data) == Ok(DecodeFields(fields, data).value[i])
    decreases |fields|
  {
    if fields != [] {
      FieldsTakenIff(fields[1..], data);
      assert forall i :: 1 <= i < |fields| ==> fields[i] == fields[1..][i - 1];
    }
  }

  lemma KeyHashable(k: Val, ty: Ty)
    requires (ScalarTy(ty) || ty.TEnum?) && Decode(ty, k, false).Ok?
    ensures Hashable(Decode(ty, k, false).value)
  {
    if ty.TEnum? { FindMemberGives(ty, k, 0); }
  }

  lemma {:induction false} FindMemberGives(enum: Ty, v: Val, from: nat)
    requires enum.TEnum?
    ensures FindMember(enum, v, from).Ok? <==>
      (v.VEnum? && v.enum == enum) || exists m :: from <= m < |enum.members| && Same(enum.members[m], v)
    ensures FindMember(enum, v, from).Ok? ==>
      FindMember(enum, v, from).value.VEnum? && FindMember(enum, v, from).value.enum == enum
    decreases |enum.members| - from
  {
    if from < |enum.members| && !(v.VEnum? && v.enum == enum) {
      FindMemberGives(enum, v, from + 1);
    }
  }

  lemma {:induction false} EntriesTakenIff(ty: Ty, entries: seq<Entry>, made: seq<Entry>)
    requires ty.TDict? && (ScalarTy(ty.key) || ty.key.TEnum?)
    ensures DecodeEntries(ty, entries, made).Ok? <==>
      forall i :: 0 <= i < |entries| ==> Decode(ty.key, entries[i].key, false).Ok? && Decode(ty.item, entries[i].value, false).Ok?
    decreases |entries|
  {
    if entries != [] {
      var k, d := Decode(ty.key, entries[0].key, false), Decode(ty.item, entries[0].value, false);
      assert forall i :: 1 <= i < |entries| ==> entries[i] == entries[1..][i - 1];
      if k.Ok? && d.Ok? {
        KeyHashable(entries[0].key, ty.key);
        EntriesTakenIff(ty, entries[1..], Put(made, Entry(k.value, d.value)));
      }
    }
  }

  /** What is accepted strictly is decoded to the same value otherwise; what is accepted otherwise only, a type object. */
  lemma StrictAgrees(ty: Ty, v: Val)
    ensures Decode(ty, v, true).Ok? ==> Decode(ty, v, false) == Decode(ty, v, true)
    ensures Decode(ty, v, true).Raise? && Decode(ty, v, false).Ok? ==> ScalarTy(ty) && Decode(ty, v, false).value.VType?
  {
  }

  lemma {:induction false} ArmsRaiseIff(arms: seq<Ty>, v: Val, strict: bool)
    ensures DecodeArms(arms, v, strict).Raise? <==> forall i :: 0 <= i < |arms| ==> Decode(arms[i], v, strict).Raise?
  {
    if arms != [] {
      ArmsRaiseIff(arms[1..], v, strict);
      assert forall i :: 1 <= i < |arms| ==> arms[i] == arms[1..][i - 1];
    }
  }

  /** A union raises exactly when no arm takes the value even without strictness; so one scalar arm is enough for
      it never to raise. */
  lemma UnionRaisesIff(arms: seq<Ty>, v: Val, strict: bool)
    ensures Decode(TUnion(arms), v, strict).Raise? <==> forall i :: 0 <= i < |arms| ==> Decode(arms[i], v, false).Raise?
    ensures (exists i :: 0 <= i < |arms| && ScalarTy(arms[i])) ==> Decode(TUnion(arms), v, strict).Ok?
  {
    ArmsRaiseIff(arms, v, true);
    ArmsRaiseIff(arms, v, false);
    forall i | 0 <= i < |arms| && Decode(arms[i], v, true).Ok? ensures Decode(arms[i], v, false).Ok? {
      StrictAgrees(arms[i], v);
    }
    assert Decode(TUnion(arms), v, strict)
        == if DecodeArms(arms, v, true).Ok? then DecodeArms(arms, v, true) else DecodeArms(arms, v, false);
  }

  ghost predicate Agree(ty: Ty, v: Val, strict: bool) { Decode(ty, v, strict).Ok? <==> Takes(ty, v, strict) }

  lemma ListDecodesIff(ty: Ty, v: Val, strict: bool)
    requires ty.TList?
    requires Iterate(v).Ok? ==> forall i :: 0 <= i < |Iterate(v).value| ==> Agree(ty.elem, Iterate(v).value[i], false)
    ensures Agree(ty, v, strict)
  {
    if Iterate(v).Ok? {
      var items := Iterate(v).value;
      AllTakenIff(ty, items);
      assert forall i :: 0 <= i < |items| ==> Agree(ty.elem, items[i], false);
    }
  }

  lemma TupleDecodesIff(ty: Ty, v: Val, strict: bool)
    requires ty.TTuple?
    requires Iterate(v).Ok? && |Iterate(v).value| == |ty.items| ==>
      forall i :: 0 <= i < |ty.items| ==> Agree(ty.items[i], Iterate(v).value[i], false)
    ensures Agree(ty, v, strict)
  {
    if Iterate(v).Ok? && |Iterate(v).value| == |ty.items| {
      var items := Iterate(v).value;
      EachTakenIff(ty.items, items);
      assert forall i :: 0 <= i < |items| ==> Agree(ty.items[i], items[i], false);
    }
  }

  lemma DataDecodesIff(ty: Ty, v: Val, strict: bool)
    requires ty.TData?
    requires forall i :: 0 <= i < |ty.fields| ==> (DecodeField(ty.fields[i], v).Ok? <==> FieldTaken(ty.fields[i], v))
    ensures Agree(ty, v, strict)
  {
    FieldsTakenIff(ty.fields, v);
  }

  lemma UnionDecodesIff(ty: Ty, v: Val, strict: bool)
    requires ty.TUnion? && forall i :: 0 <= i < |ty.arms| ==> Agree(ty.arms[i], v, false)
    ensures Agree(ty, v, strict)
  {
    UnionRaisesIff(ty.arms, v, strict);
    assert forall i :: 0 <= i < |ty.arms| ==> Agree(ty.arms[i], v, false);
  }

  lemma DictDecodesIff(ty: Ty, v: Val, strict: bool)
    requires ty.TDict? && (ScalarTy(ty.key) || ty.key.TEnum?)
    requires v.VDict? ==>
      forall i :: 0 <= i < |v.entries| ==> Agree(ty.key, v.entries[i].key, false) && Agree(ty.item, v.entries[i].value, false)
    ensures Agree(ty, v, strict)
  {
    if v.VDict? {
      EntriesTakenIff(ty, v.entries, []);
      assert forall i :: 0 <= i < |v.entries| ==>
        Agree(ty.key, v.entries[i].key, false) && Agree(ty.item, v.entries[i].value, false);
    }
  }

  lemma PlainDecodesIff(ty: Ty, v: Val, strict: bool)
    requires ScalarTy(ty) || ty.TEnum?
    ensures Agree(ty, v, strict)
  {
    if ty.TEnum? { FindMemberGives(ty, v, 0); }
  }

  /** The decoder returns a value exactly for what it is said to take, for every type and every value; it raises for
      all else. */
  lemma {:induction false} DecodesIff(ty: Ty, v: Val, strict: bool)
    requires GoodTy(ty)
    ensures Agree(ty, v, strict)
    decreases ty
  {
    hide Agree;
    match ty
    case TList(elem) =>
      if Iterate(v).Ok? {
        forall i | 0 <= i < |Iterate(v).value| ensures Agree(elem, Iterate(v).value[i], false) {
          DecodesIff(elem, Iterate(v).value[i], false);
        }
      }
      ListDecodesIff(ty, v, strict);
    case TTuple(tys) =>
      if Iterate(v).Ok? && |Iterate(v).value| == |tys| {
        forall i | 0 <= i < |tys| ensures Agree(tys[i], Iterate(v).value[i], false) {
          DecodesIff(tys[i], Iterate(v).value[i], false);
        }
      }
      TupleDecodesIff(ty, v, strict);
    case TDict(key, item) =>
      if v.VDict? {
        forall i | 0 <= i < |v.entries|
          ensures Agree(key, v.entries[i].key, false) && Agree(item, v.entries[i].value, false)
        {
          PlainDecodesIff(key, v.entries[i].key, false);
          DecodesIff(item, v.entries[i].value, false);
        }
      }
      DictDecodesIff(ty, v, strict);
    case TData(_, fields) =>
      forall i | 0 <= i < |fields| ensures DecodeField(fields[i], v).Ok? <==> FieldTaken(fields[i], v) {
        if Lookup(v, fields[i].name).Ok? && Lookup(v, fields[i].name).value.Some? {
          DecodesIff(fields[i].ty, Lookup(v, fields[i].name).value.value, false);
        }
        FieldDecodesIff(fields[i], v);
      }
      DataDecodesIff(ty, v, strict);
    case TUnion(arms) =>
      forall i | 0 <= i < |arms| ensures Agree(arms[i], v, false) {
        DecodesIff(arms[i], v, false);
      }
      UnionDecodesIff(ty, v, strict);
    case _ => PlainDecodesIff(ty, v, strict);
  }

  lemma FieldDecodesIff(f: Field, v: Val)
    requires Lookup(v, f.name).Ok? && Lookup(v, f.name).value.Some? ==> Agree(f.ty, Lookup(v, f.name).value.value, false)
    ensures DecodeField(f, v).Ok? <==> FieldTaken(f, v)
  {
  }

  lemma AcceptIsDecode(arms: seq<Ty>, i: nat, e: Val)
    requires GoodTy(TUnion(arms)) && FirstToAccept(arms, i, e)
    ensures FirstToDecode(arms, i, e)
  {
    forall j | 0 <= j < i ensures Decode(arms[j], e, true).Raise? {
      DecodesIff(arms[j], e, true);
    }
  }

  // ---------------------------------------------------------------- one constructor each

  lemma ScalarTrip(v: Val, ty: Ty, skip: bool)
    requires ScalarTy(ty) && Scalar(v) && IsInstance(v, ty)
    ensures RoundTrips(v, ty, skip)
  {
  }

  lemma EnumTrip(v: Val, ty: Ty, skip: bool)
    requires ty.TEnum? && GoodTy(ty) && Member(v) && v.enum == ty
    ensures RoundTrips(v, ty, skip)
  {
    FindMemberAt(ty, v.member, 0);
  }

  lemma ListTrip(v: Val, ty: Ty, skip: bool)
    requires ty.TList? && v.VList? && forall i :: 0 <= i < |v.list| ==> RoundTrips(v.list[i], ty.elem, skip)
    ensures RoundTrips(v, ty, skip)
  {
    ItemsTrip(v.list, ty, skip);
  }

  lemma FixedTupleTrip(v: Val, ty: Ty, skip: bool)
    requires ty.TTuple? && v.VTuple? && |v.tuple| == |ty.items|
    requires forall i :: 0 <= i < |v.tuple| ==> RoundTrips(v.tuple[i], ty.items[i], skip)
    ensures RoundTrips(v, ty, skip)
  {
    TupleTrip(v.tuple, ty.items, skip);
  }

  lemma MappingTrip(v: Val, ty: Ty, skip: bool)
    requires ty.TDict? && (ScalarTy(ty.key) || ty.key.TEnum?) && v.VDict? && FreshKeys([], v.entries)
    requires forall i :: 0 <= i < |v.entries| ==> EntryTrips(v.entries[i], ty, skip)
    ensures RoundTrips(v, ty, skip)
  {
    DictTrip(v.entries, ty, skip, []);
    assert [] + RestoredEntries(v.entries, skip) == RestoredEntries(v.entries, skip);
  }

  lemma ArmTrip(v: Val, arms: seq<Ty>, skip: bool, i: nat)
    requires i < |arms| && RoundTrips(v, arms[i], skip)
    requires Encode(v, skip).Ok? ==> FirstToDecode(arms, i, Encode(v, skip).value)
    ensures RoundTrips(v, TUnion(arms), skip)
  {
    UnionTrip(v, arms, skip, i);
  }

  // ---------------------------------------------------------------- main results

  /** Decoding an encoded value gives the value back, with every field that was left out at its default: for
      every well-typed value over nested dataclasses, enums, scalars, lists, dictionaries, fixed tuples, and
      unions in which no earlier arm takes the encoded value in the strict pass. */
  lemma {:induction false} DecodeEncode(v: Val, ty: Ty, skip: bool)
    requires GoodTy(ty) && HasType(v, ty, skip)
    ensures RoundTrips(v, ty, skip)
    decreases ty
  {
    hide RoundTrips;
    match ty
    case TEnum(_, _) => EnumTrip(v, ty, skip);
    case TData(_, fields) =>
      forall i | 0 <= i < |v.vals| ensures FieldTrips(fields[i], v.vals[i], skip) {
        if !Omitted(skip, fields[i], v.vals[i]) {
          DecodeEncode(v.vals[i], fields[i].ty, skip);
        }
      }
      DataTrip(v, ty, skip);
    case TList(elem) =>
      forall i | 0 <= i < |v.list| ensures RoundTrips(v.list[i], elem, skip) {
        DecodeEncode(v.list[i], elem, skip);
      }
      ListTrip(v, ty, skip);
    case TTuple(items) =>
      forall i | 0 <= i < |v.tuple| ensures RoundTrips(v.tuple[i], items[i], skip) {
        DecodeEncode(v.tuple[i], items[i], skip);
      }
      FixedTupleTrip(v, ty, skip);
    case TDict(key, item) =>
      forall i | 0 <= i < |v.entries| ensures EntryTrips(v.entries[i], ty, skip) {
        DecodeEncode(v.entries[i].value, item, skip);
      }
      MappingTrip(v, ty, skip);
    case TUnion(arms) =>
      var i :| 0 <= i < |arms| && HasType(v, arms[i], skip) &&
        (Encode(v, skip).Ok? ==> FirstToAccept(arms, i, Encode(v, skip).value));
      DecodeEncode(v, arms[i], skip);
      if Encode(v, skip).Ok? {
        AcceptIsDecode(arms, i, Encode(v, skip).value);
      }
      ArmTrip(v, arms, skip, i);
    case _ => ScalarTrip(v, ty, skip);
  }

  // ---------------------------------------------------------------- unions

  /** The i-th arm is the first that takes the value. */
  ghost predicate FirstOk(arms: seq<Ty>, v: Val, strict: bool, i: nat) {
    && i < |arms| && Decode(arms[i], v, strict).Ok?
    && forall j :: 0 <= j < i ==> Decode(arms[j], v, strict).Raise?
  }

  /** What a pass over the arms of a union answers: what the first arm that takes the value does. */
  lemma {:induction false} FirstArmDecides(arms: seq<Ty>, v: Val, strict: bool, i: nat)
    requires FirstOk(arms, v, strict, i)
    ensures DecodeArms(arms, v, strict) == Decode(arms[i], v, strict)
    decreases i
  {
    if i > 0 {
      assert forall j :: 0 <= j < i - 1 ==> arms[1..][j] == arms[j + 1];
      FirstArmDecides(arms[1..], v, strict, i - 1);
    }
  }

  /** A union answers, asked strictly or not, as the first arm that takes the value strictly; if none does, as the
      first that takes it otherwise. */
  lemma UnionGives(arms: seq<Ty>, v: Val, strict: bool, i: nat)
    ensures FirstOk(arms, v, true, i) ==> Decode(TUnion(arms), v, strict) == Decode(arms[i], v, true)
    ensures FirstOk(arms, v, false, i) && (forall j :: 0 <= j < |arms| ==> Decode(arms[j], v, true).Raise?) ==>
      Decode(TUnion(arms), v, strict) == Decode(arms[i], v, false)
  {
    assert Decode(TUnion(arms), v, strict)
        == if DecodeArms(arms, v, true).Ok? then DecodeArms(arms, v, true) else DecodeArms(arms, v, false);
    ArmsRaiseIff(arms, v, true);
    if FirstOk(arms, v, true, i) { FirstArmDecides(arms, v, true, i); }
    if FirstOk(arms, v, false, i) { FirstArmDecides(arms, v, false, i); }
  }
}
