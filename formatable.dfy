/**
  Formatable records, src/feat/common/formatable.py: a class declares named fields with
  defaults; an instance sets each field from keyword arguments or from a snapshot,
  keeping a true value given for it and otherwise taking (a copy of) the default, and
  snapshots into a dictionary of its non-None fields keyed by their serialized names.
  Copying a default is the identity on values here.
*/
module Formatable {
  import opened Wrappers
  import opened PyValues

  datatype Field = Field(name: string, default: Value, serializeAs: string)

  /** Field(name, default, serialize_as): the serialized name falls back to the field name
      when none (or an empty one) is given. */
  function MakeField(name: string, default: Value, serializeAs: Option<string>): (f: Field)
    ensures f.name == name && f.default == default
    ensures serializeAs.None? || serializeAs == Some("") ==> f.serializeAs == name
    ensures serializeAs.Some? && serializeAs.value != "" ==> f.serializeAs == serializeAs.value
  {
    Field(name, default, if serializeAs.Some? && serializeAs.value != "" then serializeAs.value else name)
  }

  /** `dictionary.get(key, None) or copy.copy(default)`. */
  function Pick(d: map<string, Value>, key: string, default: Value): Value {
    Or(if key in d then d[key] else VNone, default)
  }

  /** The key a field is read under: its name for keyword arguments, its serialized name
      for a snapshot. */
  function KeyOf(f: Field, bySerializedName: bool): string {
    if bySerializedName then f.serializeAs else f.name
  }

  /** The attributes after the loop of _set_fields (or recover) over `fields`, in order. */
  function FillSpec(attrs: map<string, Value>, fields: seq<Field>, d: map<string, Value>,
                    bySerializedName: bool): map<string, Value>
    decreases |fields|
  {
    if fields == [] then attrs
    else
      var last := fields[|fields| - 1];
      FillSpec(attrs, fields[..|fields| - 1], d, bySerializedName)[last.name := Pick(d, KeyOf(last, bySerializedName), last.default)]
  }

  predicate HasFields(attrs: map<string, Value>, fields: seq<Field>) {
    forall i :: 0 <= i < |fields| ==> fields[i].name in attrs
  }

  /** The dictionary the loop of snapshot() builds. */
  function SnapshotSpec(attrs: map<string, Value>, fields: seq<Field>): map<string, Value>
    requires HasFields(attrs, fields)
    decreases |fields|
  {
    if fields == [] then map[]
    else
      var last := fields[|fields| - 1];
      var prev := SnapshotSpec(attrs, fields[..|fields| - 1]);
      if attrs[last.name] != VNone then prev[last.serializeAs := attrs[last.name]] else prev
  }

  /** The class-level list of declared fields; None until the first declaration. */
  class FormatableClass {
    var fields: Option<seq<Field>>

    constructor ()
      ensures fields == None
    {
      fields := None;
    }

    /** _register_field: fields are kept in declaration order. */
    method RegisterField(f: Field)
      modifies this
      ensures fields == Some((if old(fields).Some? then old(fields).value else []) + [f])
    {
      if fields.None? {
        fields := Some([]);
      }
      fields := Some(fields.value + [f]);
    }
  }

  /** An instance: its fields and its attributes. */
  class FormatableObject {
    const fields: seq<Field>
    var attrs: map<string, Value>

    ghost predicate Valid()
      reads this
    {
      HasFields(attrs, fields)
    }

    /** __init__(**fields) for a class whose fields are declared. */
    constructor (cls: FormatableClass, kwargs: map<string, Value>)
      requires cls.fields.Some?
      ensures fields == cls.fields.value
      ensures attrs == FillSpec(map[], fields, kwargs, false)
      ensures Valid()
    {
      fields := cls.fields.value;
      attrs := map[];
      new;
      SetFields(kwargs, false);
    }

    /** The loop of _set_fields (`bySerializedName` false) and of recover (true). */
    method SetFields(d: map<string, Value>, bySerializedName: bool)
      modifies this
      ensures attrs == FillSpec(old(attrs), fields, d, bySerializedName)
      ensures HasFields(attrs, fields)
    {
      var i := 0;
      var a := attrs;
      while i < |fields|
        invariant i <= |fields|
        invariant a == FillSpec(attrs, fields[..i], d, bySerializedName)
        invariant HasFields(a, fields[..i])
      {
        assert fields[..i + 1][..i] == fields[..i];
        a := a[fields[i].name := Pick(d, KeyOf(fields[i], bySerializedName), fields[i].default)];
        i := i + 1;
      }
      assert fields[..i] == fields;
      attrs := a;
    }

    method Recover(snapshot: map<string, Value>)
      modifies this
      ensures attrs == FillSpec(old(attrs), fields, snapshot, true)
      ensures Valid()
    {
      SetFields(snapshot, true);
    }

    method Snapshot() returns (res: map<string, Value>)
      requires Valid()
      ensures res == SnapshotSpec(attrs, fields)
    {
      res := map[];
      var i := 0;
      while i < |fields|
        invariant i <= |fields|
        invariant HasFields(attrs, fields[..i])
        invariant res == SnapshotSpec(attrs, fields[..i])
      {
        assert fields[..i + 1][..i] == fields[..i];
        var value := attrs[fields[i].name];
        if value != VNone {
          res := res[fields[i].serializeAs := value];
        }
        i := i + 1;
      }
      assert fields[..i] == fields;
    }
  }
}
