/**
 * The serialization callbacks: each takes a PHP array and returns it with
 * API metadata keys (`_element`, `_type`, `_kvpkeyname`) or the property's
 * data type (`datatype`) written into it. The data type lookup is a
 * function; the callbacks also return the properties it was asked for.
 */
module CallbackFactory {
  import opened Basics
  import opened Collections
  import opened PhpArrays

  type PropertyId = string
  type SerializedArray = Assoc<string, Value>

  /** Snak serializations grouped by property id. */
  type SnaksByProperty = Assoc<PropertyId, seq<SerializedArray>>

  /** A callback's result and the properties whose data type it looked up, in order. */
  datatype WithLookups<T> = WithLookups(value: T, lookups: seq<PropertyId>)

  /** The index-tags callback: `_element` names the tag, every other key is kept. */
  function IndexTags(data: SerializedArray, tagName: string): (r: SerializedArray)
    ensures Get(r, "_element") == Some(Str(tagName))
    ensures forall k :: k != "_element" ==> Get(r, k) == Get(data, k)
    ensures KeysOf(r) == if HasKey(data, "_element") then KeysOf(data) else KeysOf(data) + ["_element"]
  {
    SetKeys(data, "_element", Str(tagName));
    Set(data, "_element", Str(tagName))
  }

  /** The set-array-type callback: `_type`, then `_kvpkeyname` when a key name is given. */
  function SetArrayType(data: SerializedArray, arrayType: string, kvpKeyName: Option<string>): (r: SerializedArray)
    ensures Get(r, "_type") == Some(Str(arrayType))
    ensures Get(r, "_kvpkeyname") == if kvpKeyName.Some? then Some(Str(kvpKeyName.value)) else Get(data, "_kvpkeyname")
    ensures forall k :: k != "_type" && k != "_kvpkeyname" ==> Get(r, k) == Get(data, k)
  {
    var typed := Set(data, "_type", Str(arrayType));
    match kvpKeyName
    case None => typed
    case Some(name) => Set(typed, "_kvpkeyname", Str(name))
  }

  /**
   * The add-datatype-to-snak callback: a snak whose `property` is a string
   * gets `datatype` from one lookup of that property and keeps every other
   * key; any other array is returned unchanged without a lookup.
   */
  function AddDataTypeToSnak(snak: SerializedArray, dataTypeOf: PropertyId -> string): (r: WithLookups<SerializedArray>)
    ensures |r.lookups| <= 1
    ensures r.lookups != [] <==> Get(snak, "property").Some? && Get(snak, "property").value.Str?
    ensures r.lookups != [] ==> r.lookups == [Get(snak, "property").value.s] &&
                                Get(r.value, "datatype") == Some(Str(dataTypeOf(r.lookups[0])))
    ensures r.lookups == [] ==> r.value == snak
    ensures forall k :: k != "datatype" ==> Get(r.value, k) == Get(snak, k)
  {
    var property := Get(snak, "property");
    if property.Some? && property.value.Str? then
      var p := property.value.s;
      WithLookups(Set(snak, "datatype", Str(dataTypeOf(p))), [p])
    else WithLookups(snak, [])
  }

  /** Every snak of a group, with `datatype` set to the group's data type. */
  function WithDataType(snaks: seq<SerializedArray>, dataType: string): (r: seq<SerializedArray>)
    ensures |r| == |snaks|
    ensures forall j :: 0 <= j < |r| ==> Get(r[j], "datatype") == Some(Str(dataType)) &&
                                         forall k :: k != "datatype" ==> Get(r[j], k) == Get(snaks[j], k)
  {
    seq(|snaks|, j requires 0 <= j < |snaks| => Set(snaks[j], "datatype", Str(dataType)))
  }

  /**
   * The add-datatype-to-snaks-grouped-by-property callback: the data type of
   * each group's property is looked up once, and every snak of the group
   * gets it; groups keep their keys and their order.
   */
  function AddDataTypeToSnaksGroupedByProperty(groups: SnaksByProperty, dataTypeOf: PropertyId -> string)
    : (r: WithLookups<SnaksByProperty>)
    ensures KeysOf(r.value) == KeysOf(groups)
    ensures r.lookups == KeysOf(groups)
    ensures forall i :: 0 <= i < |groups| ==> r.value[i].1 == WithDataType(groups[i].1, dataTypeOf(groups[i].0))
  {
    if groups == [] then WithLookups([], [])
    else
      var n := |groups| - 1;
      var rest := AddDataTypeToSnaksGroupedByProperty(groups[..n], dataTypeOf);
      var (p, snaks) := groups[n];
      assert forall i :: 0 <= i < n ==> groups[..n][i] == groups[i];
      assert KeysOf(groups) == KeysOf(groups[..n]) + [p];
      WithLookups(rest.value + [(p, WithDataType(snaks, dataTypeOf(p)))], rest.lookups + [p])
  }

  /** A snak grouped under its own property gets the data type the single-snak callback gives it. */
  lemma GroupedAgreesWithSnak(groups: SnaksByProperty, dataTypeOf: PropertyId -> string, i: nat, j: nat)
    requires i < |groups| && j < |groups[i].1| && Get(groups[i].1[j], "property") == Some(Str(groups[i].0))
    ensures Get(AddDataTypeToSnaksGroupedByProperty(groups, dataTypeOf).value[i].1[j], "datatype") ==
            Get(AddDataTypeToSnak(groups[i].1[j], dataTypeOf).value, "datatype")
    ensures forall k :: Get(AddDataTypeToSnaksGroupedByProperty(groups, dataTypeOf).value[i].1[j], k) ==
                        Get(AddDataTypeToSnak(groups[i].1[j], dataTypeOf).value, k)
  {
    var grouped := AddDataTypeToSnaksGroupedByProperty(groups, dataTypeOf).value[i].1[j];
    var single := AddDataTypeToSnak(groups[i].1[j], dataTypeOf);
    assert single.lookups == [groups[i].0];
    forall k
      ensures Get(grouped, k) == Get(single.value, k)
    {
      if k != "datatype" {
        assert Get(grouped, k) == Get(groups[i].1[j], k);
      }
    }
  }

  /** The index-tags callback on `[]` gives exactly `['_element' => 'tagName']`. */
  lemma ExampleIndexTags()
    ensures IndexTags([], "tagName") == [("_element", Str("tagName"))]
  {
  }

  /** The set-array-type callback on `[]`, without and with a key-pair key name. */
  lemma ExampleSetArrayType()
    ensures SetArrayType([], "default", None) == [("_type", Str("default"))]
    ensures SetArrayType([], "default", Some("kvpKeyName")) == [("_type", Str("default")), ("_kvpkeyname", Str("kvpKeyName"))]
  {
    assert !HasKey([("_type", Str("default"))], "_kvpkeyname") by {
      assert KeysOf([("_type", Str("default"))]) == ["_type"];
    }
  }

  /** `['property' => 'P1']` gets `datatype` appended after `property`, from one lookup of P1. */
  lemma ExampleAddDataTypeToSnak(dataTypeOf: PropertyId -> string)
    requires dataTypeOf("P1") == "propertyDataType"
    ensures AddDataTypeToSnak([("property", Str("P1"))], dataTypeOf) ==
            WithLookups([("property", Str("P1")), ("datatype", Str("propertyDataType"))], ["P1"])
  {
    var snak := [("property", Str("P1"))];
    assert KeysOf(snak) == ["property"];
    assert Get(snak, "property") == Some(Str("P1"));
    assert !HasKey(snak, "datatype");
    assert Set(snak, "datatype", Str("propertyDataType")) == snak + [("datatype", Str("propertyDataType"))];
    var r := AddDataTypeToSnak(snak, dataTypeOf);
    assert r.lookups == ["P1"];
    assert r.value == Set(snak, "datatype", Str(dataTypeOf("P1")));
    assert r.value == [("property", Str("P1")), ("datatype", Str("propertyDataType"))];
  }

  /** `['P1' => [[]]]` becomes `['P1' => [['datatype' => 'propertyDataType']]]`, from one lookup of P1. */
  lemma ExampleGrouped(dataTypeOf: PropertyId -> string)
    requires dataTypeOf("P1") == "propertyDataType"
    ensures AddDataTypeToSnaksGroupedByProperty([("P1", [[]])], dataTypeOf) ==
            WithLookups([("P1", [[("datatype", Str("propertyDataType"))]])], ["P1"])
  {
    var groups: SnaksByProperty := [("P1", [[]])];
    var r := AddDataTypeToSnaksGroupedByProperty(groups, dataTypeOf);
    assert KeysOf(groups) == ["P1"];
    assert |r.value| == 1 && r.value[0].0 == "P1";
    var empty: SerializedArray := [];
    assert !HasKey(empty, "datatype");
    assert Set(empty, "datatype", Str("propertyDataType")) == [("datatype", Str("propertyDataType"))];
    assert WithDataType([empty], "propertyDataType") == [[("datatype", Str("propertyDataType"))]];
    assert r.value[0].1 == [[("datatype", Str("propertyDataType"))]];
    assert r.lookups == ["P1"];
    assert r.value == [("P1", [[("datatype", Str("propertyDataType"))]])];
  }
}
