/** Properties of formatable records: what construction and recovery set, what a snapshot
    holds, and the snapshot-recover round trip. */
module FormatableProperties {
  import opened PyValues
  import opened Formatable

  predicate DistinctNames(fields: seq<Field>) {
    forall i, j :: 0 <= i < j < |fields| ==> fields[i].name != fields[j].name
  }

  predicate DistinctSerializedNames(fields: seq<Field>) {
    forall i, j :: 0 <= i < j < |fields| ==> fields[i].serializeAs != fields[j].serializeAs
  }

  /** Setting the fields gives every declared field a value: the one found under its key if
      that is true, a copy of its default otherwise. */
  lemma {:induction false} FillAt(attrs: map<string, Value>, fields: seq<Field>, d: map<string, Value>,
                                  bySerializedName: bool, i: nat)
    requires DistinctNames(fields) && i < |fields|
    ensures var a := FillSpec(attrs, fields, d, bySerializedName);
      fields[i].name in a && a[fields[i].name] == Pick(d, KeyOf(fields[i], bySerializedName), fields[i].default)
    decreases |fields|
  {
    var init := fields[..|fields| - 1];
    if i < |fields| - 1 {
      assert init[i] == fields[i];
      assert fields[i].name != fields[|fields| - 1].name;
      FillAt(attrs, init, d, bySerializedName, i);
    }
  }

  /** Setting the fields leaves every other attribute alone and adds no other key. */
  lemma {:induction false} FillElsewhere(attrs: map<string, Value>, fields: seq<Field>, d: map<string, Value>,
                                         bySerializedName: bool, k: string)
    requires forall i :: 0 <= i < |fields| ==> fields[i].name != k
    ensures var a := FillSpec(attrs, fields, d, bySerializedName);
      (k in a <==> k in attrs) && (k in a ==> a[k] == attrs[k])
    decreases |fields|
  {
    if fields != [] {
      var init := fields[..|fields| - 1];
      assert forall i :: 0 <= i < |init| ==> init[i] == fields[i];
      FillElsewhere(attrs, init, d, bySerializedName, k);
    }
  }

  /** A snapshot holds a field, under its serialized name, exactly when its value is not
      None. */
  lemma {:induction false} SnapshotHolds(attrs: map<string, Value>, fields: seq<Field>, i: nat)
    requires HasFields(attrs, fields) && DistinctSerializedNames(fields) && i < |fields|
    ensures var s := SnapshotSpec(attrs, fields);
      && (fields[i].serializeAs in s <==> attrs[fields[i].name] != VNone)
      && (fields[i].serializeAs in s ==> s[fields[i].serializeAs] == attrs[fields[i].name])
    decreases |fields|
  {
    var init := fields[..|fields| - 1];
    assert HasFields(attrs, init);
    if i < |fields| - 1 {
      assert forall j :: 0 <= j < |init| ==> init[j] == fields[j];
      assert DistinctSerializedNames(init);
      assert fields[i].serializeAs != fields[|fields| - 1].serializeAs;
      SnapshotHolds(attrs, init, i);
    } else {
      SnapshotKeys(attrs, init);
      assert fields[i].serializeAs !in SnapshotSpec(attrs, init) by {
        forall j | 0 <= j < |init| ensures init[j].serializeAs != fields[i].serializeAs {
          assert init[j] == fields[j];
        }
      }
    }
  }

  /** A snapshot holds nothing but the fields' serialized names. */
  lemma {:induction false} SnapshotKeys(attrs: map<string, Value>, fields: seq<Field>)
    requires HasFields(attrs, fields)
    ensures forall k :: k in SnapshotSpec(attrs, fields) ==> exists i :: 0 <= i < |fields| && fields[i].serializeAs == k
    decreases |fields|
  {
    if fields != [] {
      var init := fields[..|fields| - 1];
      assert HasFields(attrs, init);
      SnapshotKeys(attrs, init);
      forall k | k in SnapshotSpec(attrs, fields)
        ensures exists i :: 0 <= i < |fields| && fields[i].serializeAs == k
      {
        var last := fields[|fields| - 1];
        if k == last.serializeAs {
          assert fields[|fields| - 1].serializeAs == k;
        } else {
          assert k in SnapshotSpec(attrs, init);
          var i :| 0 <= i < |init| && init[i].serializeAs == k;
          assert fields[i].serializeAs == k;
        }
      }
    }
  }

  /** Recovering from an instance's own snapshot restores every field whose value is true
      and resets every other field to its default. */
  lemma SnapshotRecoverRoundTrip(attrs: map<string, Value>, fields: seq<Field>, other: map<string, Value>)
    requires HasFields(attrs, fields) && DistinctNames(fields) && DistinctSerializedNames(fields)
    ensures var r := FillSpec(other, fields, SnapshotSpec(attrs, fields), true);
      forall i :: 0 <= i < |fields| ==>
        fields[i].name in r
        && r[fields[i].name] == if Truthy(attrs[fields[i].name]) then attrs[fields[i].name] else fields[i].default
  {
    var s := SnapshotSpec(attrs, fields);
    forall i | 0 <= i < |fields|
      ensures var r := FillSpec(other, fields, s, true);
        fields[i].name in r
        && r[fields[i].name] == if Truthy(attrs[fields[i].name]) then attrs[fields[i].name] else fields[i].default
    {
      SnapshotHolds(attrs, fields, i);
      FillAt(other, fields, s, true, i);
    }
  }
}
