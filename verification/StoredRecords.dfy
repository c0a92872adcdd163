/** Dataclass instances as the codec sees them, their fields listed in the order of the class. */
module StoredRecords {
  import opened Wrappers
  import opened Unique
  import opened Codec

  type Entries = seq<(string, Value)>

  function Members(entries: Entries): map<string, Value> {
    if entries == [] then map[] else Members(entries[1..])[entries[0].0 := entries[0].1]
  }

  function RecordValue(cls: RecordClass, entries: Entries): Value {
    VRecord(cls, Members(entries))
  }

  function Values<T>(xs: seq<T>, f: T -> Value): seq<Value> {
    seq(|xs|, i requires 0 <= i < |xs| => f(xs[i]))
  }

  ghost predicate NamesEntries(names: seq<string>, entries: Entries) {
    |entries| == |names| && forall i :: 0 <= i < |names| ==> entries[i].0 == names[i]
  }

  ghost predicate NamesFields(names: seq<string>, fields: seq<Field>) {
    |fields| == |names| && forall i :: 0 <= i < |names| ==> fields[i].name == names[i]
  }

  lemma {:induction false} MembersMeaning(names: seq<string>, entries: Entries)
    requires NoRepeats(names) && NamesEntries(names, entries)
    ensures forall name :: name in Members(entries) <==> name in names
    ensures forall i :: 0 <= i < |names| ==>
              names[i] in Members(entries) && Members(entries)[names[i]] == entries[i].1
  {
    if names != [] {
      MembersMeaning(names[1..], entries[1..]);
      assert names == [names[0]] + names[1..];
      assert forall i :: 0 < i < |names| ==> names[i] == names[1..][i - 1] && entries[i] == entries[1..][i - 1];
    }
  }

  lemma {:induction false} SchemaOfField(names: seq<string>, fields: seq<Field>, i: nat)
    requires NoRepeats(names) && NamesFields(names, fields) && i < |fields|
    ensures SchemaOf(fields, names[i]) == fields[i].schema
  {
    if i > 0 {
      SchemaOfField(names[1..], fields[1..], i - 1);
    }
  }

  ghost predicate EntriesTyped(init: Invariants, fields: seq<Field>, entries: Entries)
    requires |fields| == |entries|
  {
    forall i :: 0 <= i < |fields| ==> HasType(init, fields[i].schema, entries[i].1)
  }

  /** A record is well typed exactly if each field is of its declared type and the class accepts them. */
  lemma {:induction false} RecordTyped(init: Invariants, cls: RecordClass, names: seq<string>, fields: seq<Field>,
      entries: Entries)
    requires NoRepeats(names) && NamesEntries(names, entries) && NamesFields(names, fields)
    ensures HasRecordType(init, cls, fields, RecordValue(cls, entries)) <==>
              init(cls, Members(entries)) && EntriesTyped(init, fields, entries)
  {
    var v := RecordValue(cls, entries);
    MembersMeaning(names, entries);
    assert forall i :: 0 <= i < |fields| ==> fields[i].name == names[i];
    forall i | 0 <= i < |fields|
      ensures SchemaOf(fields, names[i]) == fields[i].schema
    {
      SchemaOfField(names, fields, i);
    }
    if HasRecordType(init, cls, fields, v) {
      forall i | 0 <= i < |fields|
        ensures HasType(init, fields[i].schema, entries[i].1)
      {
        assert names[i] in v.fields;
      }
    }
  }

  /** A record determines its entries. */
  lemma {:induction false} RecordsDiffer(names: seq<string>, a: Entries, b: Entries)
    requires NoRepeats(names) && NamesEntries(names, a) && NamesEntries(names, b)
    ensures Members(a) == Members(b) ==> a == b
  {
    MembersMeaning(names, a);
    MembersMeaning(names, b);
    if Members(a) == Members(b) {
      forall i | 0 <= i < |names|
        ensures a[i] == b[i]
      {
        assert a[i].0 == names[i] == b[i].0;
      }
    }
  }

  /** A record of a class without invariants: well typed if its fields are, and no other entries give the same. */
  lemma {:induction false} RecordKept(name: string, names: seq<string>, fields: seq<Field>, a: Entries, b: Entries)
    requires NoRepeats(names) && NamesFields(names, fields) && NamesEntries(names, a) && NamesEntries(names, b)
    requires EntriesTyped(PostInit, fields, a)
    ensures HasRecordType(PostInit, OtherClass(name), fields, RecordValue(OtherClass(name), a))
    ensures RecordValue(OtherClass(name), a) == RecordValue(OtherClass(name), b) ==> a == b
  {
    RecordTyped(PostInit, OtherClass(name), names, fields, a);
    RecordsDiffer(names, a, b);
  }

  // ----- records of a few fields -----

  lemma {:induction false} TwoTyped(name: string, names: seq<string>, f: Field, g: Field, x: Value, y: Value)
    requires names == [f.name, g.name] && NoRepeats(names)
    requires HasType(PostInit, f.schema, x) && HasType(PostInit, g.schema, y)
    ensures HasRecordType(PostInit, OtherClass(name), [f, g],
                          RecordValue(OtherClass(name), [(f.name, x), (g.name, y)]))
  {
    RecordTyped(PostInit, OtherClass(name), names, [f, g], [(f.name, x), (g.name, y)]);
  }

  lemma {:induction false} ThreeTyped(init: Invariants, name: string, names: seq<string>, f: Field, g: Field, h: Field,
      x: Value, y: Value, z: Value)
    requires names == [f.name, g.name, h.name] && NoRepeats(names)
    requires forall fields :: init(OtherClass(name), fields)
    ensures HasRecordType(init, OtherClass(name), [f, g, h],
                          RecordValue(OtherClass(name), [(f.name, x), (g.name, y), (h.name, z)])) <==>
              HasType(init, f.schema, x) && HasType(init, g.schema, y) && HasType(init, h.schema, z)
  {
    var fields, entries := [f, g, h], [(f.name, x), (g.name, y), (h.name, z)];
    RecordTyped(init, OtherClass(name), names, fields, entries);
    assert EntriesTyped(init, fields, entries) ==>
             && HasType(init, fields[0].schema, entries[0].1) && HasType(init, fields[1].schema, entries[1].1)
             && HasType(init, fields[2].schema, entries[2].1);
  }

  lemma {:induction false} FourTyped(name: string, names: seq<string>, f: Field, g: Field, h: Field, k: Field, x: Value,
      y: Value, z: Value, w: Value)
    requires names == [f.name, g.name, h.name, k.name] && NoRepeats(names)
    requires HasType(PostInit, f.schema, x) && HasType(PostInit, g.schema, y) && HasType(PostInit, h.schema, z)
    requires HasType(PostInit, k.schema, w)
    ensures HasRecordType(PostInit, OtherClass(name), [f, g, h, k],
                          RecordValue(OtherClass(name), [(f.name, x), (g.name, y), (h.name, z), (k.name, w)]))
  {
    RecordTyped(PostInit, OtherClass(name), names, [f, g, h, k], [(f.name, x), (g.name, y), (h.name, z), (k.name, w)]);
  }

  lemma {:induction false} FiveTyped(name: string, names: seq<string>, f: Field, g: Field, h: Field, k: Field, l: Field,
      x: Value, y: Value, z: Value, w: Value, u: Value)
    requires names == [f.name, g.name, h.name, k.name, l.name] && NoRepeats(names)
    requires HasType(PostInit, f.schema, x) && HasType(PostInit, g.schema, y) && HasType(PostInit, h.schema, z)
    requires HasType(PostInit, k.schema, w) && HasType(PostInit, l.schema, u)
    ensures HasRecordType(PostInit, OtherClass(name), [f, g, h, k, l],
                          RecordValue(OtherClass(name), [(f.name, x), (g.name, y), (h.name, z), (k.name, w),
                                                         (l.name, u)]))
  {
    RecordTyped(PostInit, OtherClass(name), names, [f, g, h, k, l],
                [(f.name, x), (g.name, y), (h.name, z), (k.name, w), (l.name, u)]);
  }

  lemma {:induction false} SixTyped(name: string, names: seq<string>, f: Field, g: Field, h: Field, k: Field, l: Field,
      m: Field, x: Value, y: Value, z: Value, w: Value, u: Value, v: Value)
    requires names == [f.name, g.name, h.name, k.name, l.name, m.name] && NoRepeats(names)
    requires HasType(PostInit, f.schema, x) && HasType(PostInit, g.schema, y) && HasType(PostInit, h.schema, z)
    requires HasType(PostInit, k.schema, w) && HasType(PostInit, l.schema, u) && HasType(PostInit, m.schema, v)
    ensures HasRecordType(PostInit, OtherClass(name), [f, g, h, k, l, m],
                          RecordValue(OtherClass(name), [(f.name, x), (g.name, y), (h.name, z), (k.name, w),
                                                         (l.name, u), (m.name, v)]))
  {
    RecordTyped(PostInit, OtherClass(name), names, [f, g, h, k, l, m],
                [(f.name, x), (g.name, y), (h.name, z), (k.name, w), (l.name, u), (m.name, v)]);
  }

  lemma {:induction false} SevenTyped(name: string, names: seq<string>, f: Field, g: Field, h: Field, k: Field,
      l: Field, m: Field, n: Field, x: Value, y: Value, z: Value, w: Value, u: Value, v: Value, t: Value)
    requires names == [f.name, g.name, h.name, k.name, l.name, m.name, n.name] && NoRepeats(names)
    requires HasType(PostInit, f.schema, x) && HasType(PostInit, g.schema, y) && HasType(PostInit, h.schema, z)
    requires HasType(PostInit, k.schema, w) && HasType(PostInit, l.schema, u) && HasType(PostInit, m.schema, v)
    requires HasType(PostInit, n.schema, t)
    ensures HasRecordType(PostInit, OtherClass(name), [f, g, h, k, l, m, n],
                          RecordValue(OtherClass(name), [(f.name, x), (g.name, y), (h.name, z), (k.name, w),
                                                         (l.name, u), (m.name, v), (n.name, t)]))
  {
    RecordTyped(PostInit, OtherClass(name), names, [f, g, h, k, l, m, n],
                [(f.name, x), (g.name, y), (h.name, z), (k.name, w), (l.name, u), (m.name, v), (n.name, t)]);
  }

  // ----- sequences -----

  lemma {:induction false} ValuesDiffer<T>(xs: seq<T>, ys: seq<T>, f: T -> Value)
    requires forall x, y :: f(x) == f(y) ==> x == y
    ensures Values(xs, f) == Values(ys, f) ==> xs == ys
  {
    if Values(xs, f) == Values(ys, f) {
      assert |Values(xs, f)| == |Values(ys, f)|;
      forall i | 0 <= i < |xs|
        ensures xs[i] == ys[i]
      {
        assert Values(xs, f)[i] == Values(ys, f)[i];
      }
    }
  }

  /** The same for a tuple of values. */
  lemma {:induction false} ValuesKept<T>(element: Schema, xs: seq<T>, ys: seq<T>, f: T -> Value)
    requires forall x :: HasType(PostInit, element, f(x))
    requires forall x, y :: f(x) == f(y) ==> x == y
    ensures HasType(PostInit, STuple(element), VTuple(Values(xs, f)))
    ensures VTuple(Values(xs, f)) == VTuple(Values(ys, f)) ==> xs == ys
  {
    ValuesDiffer(xs, ys, f);
  }

  function TextValue(text: string): Value {
    VStr(text)
  }

  function OptionalId(id: Option<int>): Value {
    if id.Some? then VInt(id.value) else VNone
  }
}
