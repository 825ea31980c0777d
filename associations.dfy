/**
 * Conversion between the key_value_store_association blocks of the resource
 * configuration and the KeyValueStoreAssociations structure of the CloudFront API
 * (resourceFunctionExpandKeyValueStoreAssociation and
 * resourceFunctionFlattenKeyValueStoreAssociation in function.go).
 */
module Associations {
  import opened Wrappers

  /** One key_value_store_association block as the configuration holds it. */
  datatype AssociationRecord = AssociationRecord(keyValueStoreArn: string)

  /** One API association; the ARN is a nullable string pointer in the SDK. */
  datatype KeyValueStoreAssociation = KeyValueStoreAssociation(keyValueStoreArn: Option<string>)

  /** The API structure: the items and their declared count. */
  datatype KeyValueStoreAssociations = KeyValueStoreAssociations(items: seq<KeyValueStoreAssociation>, quantity: nat)

  /** aws.StringValue: the pointed-to string, or "" for a nil pointer. */
  function StringValue(p: Option<string>): string
  {
    match p
    case Some(s) => s
    case None => ""
  }

  /** The API item built for one configured block. */
  function ItemOf(a: AssociationRecord): KeyValueStoreAssociation
  {
    KeyValueStoreAssociation(Some(a.keyValueStoreArn))
  }

  /** The configured block built back from one API item. */
  function RecordOf(item: KeyValueStoreAssociation): AssociationRecord
  {
    AssociationRecord(StringValue(item.keyValueStoreArn))
  }

  /** What Expand computes: absent for no blocks, else one item per block. */
  function Expanded(associations: seq<AssociationRecord>): Option<KeyValueStoreAssociations>
  {
    if |associations| == 0 then None
    else Some(KeyValueStoreAssociations(
                seq(|associations|, i requires 0 <= i < |associations| => ItemOf(associations[i])),
                |associations|))
  }

  /** What Flatten computes: absent for an absent structure, else one block per item. */
  function Flattened(associations: Option<KeyValueStoreAssociations>): Option<seq<AssociationRecord>>
  {
    match associations
    case None => None
    case Some(a) => Some(seq(|a.items|, i requires 0 <= i < |a.items| => RecordOf(a.items[i])))
  }

  /** The value a Set field holds after d.Set: a nil list is stored as the empty set. */
  function Normalized(list: Option<seq<AssociationRecord>>): seq<AssociationRecord>
  {
    match list
    case None => []
    case Some(xs) => xs
  }

  /** resourceFunctionExpandKeyValueStoreAssociation. */
  method Expand(associations: seq<AssociationRecord>) returns (r: Option<KeyValueStoreAssociations>)
    ensures r.None? <==> |associations| == 0
    ensures r.Some? ==> r.value.quantity == |r.value.items| == |associations|
    ensures r.Some? ==> forall i :: 0 <= i < |associations| ==> r.value.items[i] == ItemOf(associations[i])
    ensures r == Expanded(associations)
  {
    if |associations| == 0 {
      return None;
    }
    var items: seq<KeyValueStoreAssociation> := [];
    for i := 0 to |associations|
      invariant |items| == i
      invariant forall j :: 0 <= j < i ==> items[j] == ItemOf(associations[j])
    {
      items := items + [ItemOf(associations[i])];
    }
    assert items == Expanded(associations).value.items;
    r := Some(KeyValueStoreAssociations(items, |items|));
  }

  /** resourceFunctionFlattenKeyValueStoreAssociation; the declared quantity is not consulted. */
  method Flatten(associations: Option<KeyValueStoreAssociations>) returns (r: Option<seq<AssociationRecord>>)
    ensures r.None? <==> associations.None?
    ensures r.Some? ==> |r.value| == |associations.value.items|
    ensures r.Some? ==> forall i :: 0 <= i < |r.value| ==> r.value[i] == RecordOf(associations.value.items[i])
    ensures r == Flattened(associations)
  {
    if associations.None? {
      return None;
    }
    var source := associations.value.items;
    var items: seq<AssociationRecord> := [];
    for i := 0 to |source|
      invariant |items| == i
      invariant forall j :: 0 <= j < i ==> items[j] == RecordOf(source[j])
    {
      items := items + [RecordOf(source[i])];
    }
    assert items == Flattened(associations).value;
    r := Some(items);
  }

  /** "Not set" and "empty" are one value: both expand to absent, never to an empty structure. */
  lemma EmptyIsAbsent(list: Option<seq<AssociationRecord>>)
    ensures Expanded(Normalized(list)).None? <==> (list.None? || list == Some([]))
    ensures Flattened(None) == None && Normalized(Flattened(None)) == []
    ensures Expanded(Normalized(list)).Some? ==> |Expanded(Normalized(list)).value.items| > 0
  {
  }

  /** Flatten undoes Expand element by element, in order. */
  lemma FlattenExpand(associations: seq<AssociationRecord>)
    ensures |associations| > 0 ==> Flattened(Expanded(associations)) == Some(associations)
    ensures Normalized(Flattened(Expanded(associations))) == associations
  {
    if |associations| > 0 {
      var back := Flattened(Expanded(associations)).value;
      assert |back| == |associations|;
      forall i | 0 <= i < |associations| ensures back[i] == associations[i] {
        assert back[i] == RecordOf(ItemOf(associations[i]));
      }
      assert back == associations;
    }
  }

  /**
   * Expand undoes Flatten for a well-formed, non-empty structure (every ARN
   * present, Quantity equal to the number of items); an empty structure
   * comes back absent.
   */
  lemma ExpandFlatten(a: KeyValueStoreAssociations)
    requires forall i :: 0 <= i < |a.items| ==> a.items[i].keyValueStoreArn.Some?
    requires a.quantity == |a.items|
    ensures |a.items| > 0 ==> Expanded(Normalized(Flattened(Some(a)))) == Some(a)
    ensures |a.items| == 0 ==> Expanded(Normalized(Flattened(Some(a)))) == None
  {
    if |a.items| > 0 {
      var back := Expanded(Normalized(Flattened(Some(a)))).value;
      assert |back.items| == |a.items|;
      forall i | 0 <= i < |a.items| ensures back.items[i] == a.items[i] {
        assert back.items[i] == ItemOf(RecordOf(a.items[i]));
      }
      assert back.items == a.items;
    }
  }
}
