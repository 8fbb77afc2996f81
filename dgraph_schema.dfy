/**
 * The schema registry the Dgraph backend keeps: the set of field names it
 * has seen and, per type name, the fields registered for that type.
 */
module Schema {

  /** Every field registered for a type is also a known field. */
  predicate Consistent(fields: set<string>, types: map<string, set<string>>)
  {
    forall t :: t in types ==> types[t] <= fields
  }

  /**
   * The type map after registering `fieldName` for `typeName`: that type's
   * set, created empty when the type is new, gains the field; every other
   * type keeps its set.
   */
  function WithField(types: map<string, set<string>>, typeName: string, fieldName: string): (r: map<string, set<string>>)
    ensures r.Keys == types.Keys + {typeName}
    ensures fieldName in r[typeName]
    ensures r[typeName] == (if typeName in types then types[typeName] else {}) + {fieldName}
    ensures forall t :: t in types && t != typeName ==> r[t] == types[t]
  {
    types[typeName := (if typeName in types then types[typeName] else {}) + {fieldName}]
  }

  /** Registering the same field for the same type a second time changes nothing. */
  lemma WithFieldIdempotent(types: map<string, set<string>>, typeName: string, fieldName: string)
    ensures WithField(WithField(types, typeName, fieldName), typeName, fieldName) == WithField(types, typeName, fieldName)
  {
    var once := WithField(types, typeName, fieldName);
    assert once[typeName] + {fieldName} == once[typeName];
  }

  /** The order in which two fields are registered does not matter. */
  lemma WithFieldCommutes(types: map<string, set<string>>, t1: string, f1: string, t2: string, f2: string)
    ensures WithField(WithField(types, t1, f1), t2, f2) == WithField(WithField(types, t2, f2), t1, f1)
  {
    var a, b := WithField(WithField(types, t1, f1), t2, f2), WithField(WithField(types, t2, f2), t1, f1);
    assert a.Keys == b.Keys;
    forall t | t in a ensures a[t] == b[t] {
      if t == t1 && t == t2 {
        assert a[t] == (if t in types then types[t] else {}) + {f1} + {f2};
        assert b[t] == (if t in types then types[t] else {}) + {f2} + {f1};
      }
    }
  }

  /** Registering a field keeps every per-type field among the known fields. */
  lemma WithFieldConsistent(fields: set<string>, types: map<string, set<string>>, typeName: string, fieldName: string)
    requires Consistent(fields, types)
    ensures Consistent(fields + {fieldName}, WithField(types, typeName, fieldName))
  {
  }

  class DgraphSchema {
    var fields: set<string>
    var types: map<string, set<string>>

    ghost predicate Valid()
      reads this
    {
      Consistent(fields, types)
    }

    /** The registry starts from the given fields and types, which must already agree. */
    constructor (fields: set<string>, types: map<string, set<string>>)
      requires Consistent(fields, types)
      ensures Valid()
      ensures this.fields == fields && this.types == types
    {
      this.fields := fields;
      this.types := types;
    }

    /** `hasField(fieldName)`: the field is known, for some type or none. */
    function HasField(fieldName: string): (r: bool)
      reads this
      ensures r <==> fieldName in fields
    {
      fieldName in fields
    }

    /** `hasType(typeName)`: some field was registered for the type. */
    function HasType(typeName: string): (r: bool)
      reads this
      ensures r <==> typeName in types
      ensures Valid() && r ==> types[typeName] <= fields
    {
      typeName in types
    }

    /**
     * `hasField(typeName, fieldName)`: the field is registered for the type.
     * An unknown type has no fields; a consistent registry knows every field
     * it has registered for a type.
     */
    function HasTypeField(typeName: string, fieldName: string): (r: bool)
      reads this
      ensures r ==> HasType(typeName)
      ensures r <==> typeName in types && fieldName in types[typeName]
      ensures Valid() && r ==> HasField(fieldName)
    {
      fieldName in if typeName in types then types[typeName] else {}
    }

    /** `isEmpty()`: no field is known; then, if consistent, no type has a field. */
    function IsEmpty(): (r: bool)
      reads this
      ensures r <==> forall f :: !HasField(f)
      ensures Valid() && r ==> forall t, f :: !HasTypeField(t, f)
    {
      assert forall f :: HasField(f) <==> f in fields;
      |fields| == 0
    }

    /** `getFields()`: a snapshot of every known field. */
    function GetFields(): (r: set<string>)
      reads this
      ensures forall f :: f in r <==> HasField(f)
      ensures r == {} <==> IsEmpty()
    {
      fields
    }

    /** `getFields(typeName)`: a snapshot of the type's fields, empty for an unknown type. */
    function GetTypeFields(typeName: string): (r: set<string>)
      reads this
      ensures forall f :: f in r <==> HasTypeField(typeName, f)
      ensures !HasType(typeName) ==> r == {}
      ensures Valid() ==> r <= GetFields()
    {
      if typeName in types then types[typeName] else {}
    }

    /** `getTypes()`: a snapshot with the same type names and the same field set per type. */
    function GetTypes(): (r: map<string, set<string>>)
      reads this
      ensures forall t :: t in r <==> HasType(t)
      ensures forall t :: t in r ==> r[t] == GetTypeFields(t)
      ensures Valid() ==> Consistent(GetFields(), r)
    {
      types
    }

    /**
     * `addField(typeName, fieldName)`: the field joins the known fields and
     * the type's set, which is created if the type is new; nothing else
     * changes. A consistent registry stays consistent.
     */
    method AddField(typeName: string, fieldName: string)
      modifies this
      ensures fields == old(fields) + {fieldName}
      ensures types == WithField(old(types), typeName, fieldName)
      ensures old(Valid()) ==> Valid()
      ensures HasField(fieldName) && HasType(typeName) && HasTypeField(typeName, fieldName)
    {
      if typeName !in types {
        types := types[typeName := {}];
      }
      types := types[typeName := types[typeName] + {fieldName}];
      fields := fields + {fieldName};
    }

    /** `clear()`: no field and no type is left. */
    method Clear()
      modifies this
      ensures fields == {} && types == map[]
      ensures Valid() && IsEmpty() && GetTypes() == map[]
      ensures forall t :: !HasType(t)
    {
      types := map[];
      fields := {};
    }
  }
}
