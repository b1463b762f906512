/** The loops of `asdict` and `dict_to_dataclass` (shutils/param.py), which build their lists and dictionaries
    item by item, against the functions that say what they compute. */
module ParamLoops {
  import opened Options
  import opened Params

  /** What has been built so far, with what is still to come. */
  function Joined<T>(made: seq<T>, rest: Result<seq<T>>): Result<seq<T>> {
    match rest case Raise => Raise case Ok(more) => Ok(made + more)
  }

  lemma JoinedStart<T>(r: Result<seq<T>>)
    ensures Joined([], r) == r
  {
    if r.Ok? { assert [] + r.value == r.value; }
  }

  lemma JoinedStep<T>(made: seq<T>, x: T, rest: Result<seq<T>>)
    ensures Joined(made, Joined([x], rest)) == Joined(made + [x], rest)
  {
    if rest.Ok? { assert made + ([x] + rest.value) == made + [x] + rest.value; }
  }

  lemma JoinedEnd<T>(made: seq<T>)
    ensures Joined(made, Ok([])) == Ok(made)
  {
    assert made + [] == made;
  }

  // ---------------------------------------------------------------- asdict

  /** `asdict` takes dataclass instances only. */
  method AsDict(v: Val, skipPrivate: bool) returns (r: Result<Val>)
    ensures r == if v.VData? then Encode(v, skipPrivate) else Raise
  {
    if !v.VData? {
      return Raise;
    }
    r := AsDictInternal(v, skipPrivate);
  }

  method AsDictInternal(v: Val, skip: bool) returns (r: Result<Val>)
    ensures r == Encode(v, skip)
    decreases v
  {
    match v
    case VList(items) =>
      var es := AsDictItems(items, skip);
      r := if es.Raise? then Raise else Ok(VList(es.value));
    case VTuple(items) =>
      var es := AsDictItems(items, skip);
      r := if es.Raise? then Raise else Ok(VTuple(es.value));
    case VDict(entries) =>
      var es := AsDictEntries(entries, skip);
      r := if es.Raise? then Raise else Ok(VDict(es.value));
    case VData(c, vals) =>
      if !Instance(v) {
        return Raise;
      }
      var es := AsDictFields(c.fields, vals, skip);
      r := if es.Raise? then Raise else Ok(VDict(es.value));
    case VEnum(e, m) => r := if Member(v) then Ok(e.members[m]) else Raise;
    case VHide => r := Raise;
    case VType(_) => r := Raise;
    case _ => r := Ok(v);
  }

  method AsDictItems(items: seq<Val>, skip: bool) returns (r: Result<seq<Val>>)
    ensures r == EncodeAll(items, skip)
    decreases items
  {
    var result := [];
    JoinedStart(EncodeAll(items, skip));
    for i := 0 to |items|
      invariant EncodeAll(items, skip) == Joined(result, EncodeAll(items[i..], skip))
    {
      assert items[i..][0] == items[i] && items[i..][1..] == items[i + 1..];
      var e := AsDictInternal(items[i], skip);
      if e.Raise? {
        return Raise;
      }
      JoinedStep(result, e.value, EncodeAll(items[i + 1..], skip));
      result := result + [e.value];
    }
    JoinedEnd(result);
    r := Ok(result);
  }

  method AsDictEntry(entry: Entry, skip: bool) returns (r: Result<Val>)
    ensures r == Encode(entry.value, skip)
    decreases entry
  {
    r := AsDictInternal(entry.value, skip);
  }

  method AsDictEntries(entries: seq<Entry>, skip: bool) returns (r: Result<seq<Entry>>)
    ensures r == EncodeEntries(entries, skip)
    decreases entries
  {
    var result := [];
    JoinedStart(EncodeEntries(entries, skip));
    for i := 0 to |entries|
      invariant EncodeEntries(entries, skip) == Joined(result, EncodeEntries(entries[i..], skip))
    {
      assert entries[i..][0] == entries[i] && entries[i..][1..] == entries[i + 1..];
      var entry := entries[i];
      var e := AsDictEntry(entry, skip);
      if e.Raise? {
        return Raise;
      }
      JoinedStep(result, Entry(entry.key, e.value), EncodeEntries(entries[i + 1..], skip));
      result := result + [Entry(entry.key, e.value)];
    }
    JoinedEnd(result);
    r := Ok(result);
  }

  method AsDictFields(fields: seq<Field>, vals: seq<Val>, skip: bool) returns (r: Result<seq<Entry>>)
    requires |fields| == |vals|
    ensures r == EncodeFields(fields, vals, skip)
    decreases vals
  {
    var result := [];
    JoinedStart(EncodeFields(fields, vals, skip));
    for i := 0 to |fields|
      invariant EncodeFields(fields, vals, skip) == Joined(result, EncodeFields(fields[i..], vals[i..], skip))
    {
      assert fields[i..][0] == fields[i] && fields[i..][1..] == fields[i + 1..];
      assert vals[i..][0] == vals[i] && vals[i..][1..] == vals[i + 1..];
      if !Omitted(skip, fields[i], vals[i]) {
        var e := AsDictInternal(vals[i], skip);
        if e.Raise? {
          return Raise;
        }
        JoinedStep(result, Entry(VStr(fields[i].name), e.value), EncodeFields(fields[i + 1..], vals[i + 1..], skip));
        result := result + [Entry(VStr(fields[i].name), e.value)];
      }
    }
    JoinedEnd(result);
    r := Ok(result);
  }

  // ---------------------------------------------------------------- dict_to_dataclass

  method DictToDataclass(data: Val, cls: Ty) returns (r: Result<Val>)
    requires cls.TData?
    ensures r == Decode(cls, data, false)
    decreases cls, 0
  {
    var values := [];
    JoinedStart(DecodeFields(cls.fields, data));
    for i := 0 to |cls.fields|
      invariant DecodeFields(cls.fields, data) == Joined(values, DecodeFields(cls.fields[i..], data))
    {
      assert cls.fields[i..][0] == cls.fields[i] && cls.fields[i..][1..] == cls.fields[i + 1..];
      var f := cls.fields[i];
      var found := Lookup(data, f.name);
      if found.Raise? {
        return Raise;
      }
      if found.value.Some? {
        var d := ProcessValue(f.ty, found.value.value, false);
        if d.Raise? {
          return Raise;
        }
        JoinedStep(values, d.value, DecodeFields(cls.fields[i + 1..], data));
        values := values + [d.value];
      } else if f.default.Some? {
        JoinedStep(values, f.default.value, DecodeFields(cls.fields[i + 1..], data));
        values := values + [f.default.value];
      } else {
        return Raise;
      }
    }
    JoinedEnd(values);
    r := Ok(VData(cls, values));
  }

  method ProcessValue(ty: Ty, v: Val, strict: bool) returns (r: Result<Val>)
    ensures r == Decode(ty, v, strict)
    decreases ty, 1
  {
    match ty
    case TUnion(arms) =>
      r := TryArms(arms, v, true);
      if r.Raise? {
        r := TryArms(arms, v, false);
      }
    case TList(_) =>
      var items := Iterate(v);
      if items.Raise? {
        return Raise;
      }
      var ds := ProcessItems(ty, items.value);
      r := if ds.Raise? then Raise else Ok(VList(ds.value));
    case TDict(_, _) =>
      if !v.VDict? {
        return Raise;
      }
      var es := ProcessEntries(ty, v.entries);
      r := if es.Raise? then Raise else Ok(VDict(es.value));
    case TTuple(tys) =>
      var items := Iterate(v);
      if items.Raise? || |tys| != |items.value| {
        return Raise;
      }
      var ds := ProcessTuple(tys, items.value);
      r := if ds.Raise? then Raise else Ok(VTuple(ds.value));
    case TData(_, _) => r := DictToDataclass(v, ty);
    case TEnum(_, _) => r := FindMember(ty, v, 0);
    case _ => r := if IsInstance(v, ty) then Ok(v) else if strict then Raise else Ok(TypeOf(v));
  }

  /** One pass over the arms: exceptions are swallowed until an arm succeeds. */
  method TryArms(arms: seq<Ty>, v: Val, strict: bool) returns (r: Result<Val>)
    ensures r == DecodeArms(arms, v, strict)
    decreases arms, 0
  {
    for i := 0 to |arms|
      invariant DecodeArms(arms, v, strict) == DecodeArms(arms[i..], v, strict)
    {
      assert arms[i..][0] == arms[i] && arms[i..][1..] == arms[i + 1..];
      r := ProcessValue(arms[i], v, strict);
      if r.Ok? {
        return;
      }
    }
    r := Raise;
  }

  method ProcessItems(ty: Ty, items: seq<Val>) returns (r: Result<seq<Val>>)
    requires ty.TList?
    ensures r == DecodeAll(ty, items)
    decreases ty, 0
  {
    var result := [];
    JoinedStart(DecodeAll(ty, items));
    for i := 0 to |items|
      invariant DecodeAll(ty, items) == Joined(result, DecodeAll(ty, items[i..]))
    {
      assert items[i..][0] == items[i] && items[i..][1..] == items[i + 1..];
      var d := ProcessValue(ty.elem, items[i], false);
      if d.Raise? {
        return Raise;
      }
      JoinedStep(result, d.value, DecodeAll(ty, items[i + 1..]));
      result := result + [d.value];
    }
    JoinedEnd(result);
    r := Ok(result);
  }

  method ProcessEntries(ty: Ty, entries: seq<Entry>) returns (r: Result<seq<Entry>>)
    requires ty.TDict?
    ensures r == DecodeEntries(ty, entries, [])
    decreases ty, 0
  {
    var result: seq<Entry> := [];
    for i := 0 to |entries|
      invariant DecodeEntries(ty, entries, []) == DecodeEntries(ty, entries[i..], result)
    {
      assert entries[i..][0] == entries[i] && entries[i..][1..] == entries[i + 1..];
      var k := ProcessValue(ty.key, entries[i].key, false);
      var d := ProcessValue(ty.item, entries[i].value, false);
      if k.Raise? || d.Raise? || !Hashable(k.value) {
        return Raise;
      }
      result := Put(result, Entry(k.value, d.value));
    }
    r := Ok(result);
  }

  method ProcessTuple(tys: seq<Ty>, items: seq<Val>) returns (r: Result<seq<Val>>)
    requires |tys| == |items|
    ensures r == DecodeEach(tys, items)
    decreases tys, 0
  {
    var result := [];
    JoinedStart(DecodeEach(tys, items));
    for i := 0 to |tys|
      invariant DecodeEach(tys, items) == Joined(result, DecodeEach(tys[i..], items[i..]))
    {
      assert tys[i..][0] == tys[i] && tys[i..][1..] == tys[i + 1..];
      assert items[i..][0] == items[i] && items[i..][1..] == items[i + 1..];
      var d := ProcessValue(tys[i], items[i], false);
      if d.Raise? {
        return Raise;
      }
      JoinedStep(result, d.value, DecodeEach(tys[i + 1..], items[i + 1..]));
      result := result + [d.value];
    }
    JoinedEnd(result);
    r := Ok(result);
  }
}
