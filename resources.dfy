/**
 * Resource definitions, adapters and the per-resource collections of the
 * store, with the checks and the injection step that the drivers share.
 */
module Resources {
  import opened Wrappers
  import opened Values
  import opened Errors

  /** A lifecycle hook or a transform: (resourceName, payload) -> payload, or a failure. */
  type Hook = (string, Value) -> Result<Value>

  /**
   * A registered resource definition. A hook the user omitted is the
   * identity pass-through installed at registration.
   */
  datatype Definition = Definition(
    name: string,
    idAttribute: string,
    defaultAdapter: string,
    beforeValidate: Hook,
    validate: Hook,
    afterValidate: Hook,
    beforeUpdate: Hook,
    afterUpdate: Hook,
    serialize: Hook,
    deserialize: Hook)

  /** The part of an adapter `update` uses: update(definition, id, serializedAttrs, options). */
  datatype Adapter = Adapter(update: (Definition, Value, Value, Value) -> Result<Value>)

  /**
   * store[resourceName]: the cached records, the last-saved timestamps and the
   * snapshots taken at the last save, each keyed by the record's property key.
   */
  datatype Collection = Collection(
    records: map<string, Value>,
    saved: map<string, int>,
    previousAttributes: map<string, Value>)

  const EmptyCollection := Collection(map[], map[], map[])

  /** `m[key]`, which is undefined (None) for a key m does not hold. */
  function Lookup(m: map<string, int>, key: string): (r: Option<int>)
  {
    if key in m then Some(m[key]) else None
  }

  /**
   * The first two checks of every driver, in order: the resource must be
   * registered, then the id must be a string or a number. `prefix` names the
   * operation in the message.
   */
  function CheckResourceAndId(prefix: string, definitions: map<string, Definition>, resourceName: string, id: Value): (e: Option<Error>)
    ensures e == Some(RuntimeError(prefix + resourceName + NotRegistered)) <==> resourceName !in definitions
    ensures e == Some(IllegalArgumentError(prefix + IdMustBePrimitive)) <==> resourceName in definitions && !IsId(id)
    ensures e == None <==> resourceName in definitions && IsId(id)
  {
    if resourceName !in definitions then Some(RuntimeError(prefix + resourceName + NotRegistered))
    else if !IsId(id) then Some(IllegalArgumentError(prefix + IdMustBePrimitive))
    else None
  }

  /** The fault `inject` reports for data it cannot store as one record. */
  const NotInjectable := "inject: data must be an object whose idAttribute is a string or a number"

  /**
   * inject(resourceName, data) for a single record: the record is stored under
   * the key of its own idAttribute; an existing record keeps the fields the
   * data does not carry and takes every field the data does carry.
   */
  function Inject(records: map<string, Value>, idAttribute: string, data: Value): (r: Result<(map<string, Value>, Value)>)
    ensures r.Success? <==> data.Obj? && idAttribute in data.fields && IsId(data.fields[idAttribute])
    ensures r.Failure? ==> r.error == UnhandledError(Fault(NotInjectable))
    ensures r.Success? ==>
      var (stored, record) := r.value;
      var key := PropertyKey(data.fields[idAttribute]);
      && stored == records[key := record]
      && record.Obj?
      && (forall f :: f in data.fields ==> f in record.fields && record.fields[f] == data.fields[f])
      && (key in records && records[key].Obj? ==>
            forall f :: f in records[key].fields && f !in data.fields ==> f in record.fields && record.fields[f] == records[key].fields[f])
      && (forall f :: f in record.fields ==> f in data.fields || (key in records && records[key].Obj? && f in records[key].fields))
  {
    if data.Obj? && idAttribute in data.fields && IsId(data.fields[idAttribute]) then
      var key := PropertyKey(data.fields[idAttribute]);
      var record :=
        if key in records && records[key].Obj? then Obj(records[key].fields + data.fields)
        else data;
      Success((records[key := record], record))
    else
      Failure(UnhandledError(Fault(NotInjectable)))
  }

  /** The record inject returns carries the data's idAttribute, so it is stored under that key. */
  lemma InjectedRecordKey(records: map<string, Value>, idAttribute: string, data: Value)
    requires Inject(records, idAttribute, data).Success?
    ensures var (stored, record) := Inject(records, idAttribute, data).value;
      && PropertyKey(Get(record, idAttribute)) == PropertyKey(data.fields[idAttribute])
      && PropertyKey(Get(record, idAttribute)) in stored
      && stored[PropertyKey(Get(record, idAttribute))] == record
  {
  }
}
