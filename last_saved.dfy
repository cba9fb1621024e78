/**
 * DS.lastSaved(resourceName, id): the resource and id checks, then a read of
 * store[resourceName].saved[id] that writes 0 there the first time the id is
 * seen. DataStore.DS.LastSaved performs it in place and is proved equal to it.
 */
module LastSaved {
  import opened Wrappers
  import opened Values
  import opened Errors
  import opened Resources
  import opened Update

  const LastSavedPrefix := "DS.lastSaved(resourceName[, id]): "

  /** The engine's TypeError when store[resourceName] is undefined and `.saved` is read from it. */
  const NoSavedMap := "Cannot read property 'saved' of undefined"

  /** What a lastSaved call yields and what the store holds afterwards. */
  datatype Read = Read(result: Result<int>, store: map<string, Collection>)

  function LastSavedOutcome(definitions: map<string, Definition>, store: map<string, Collection>, resourceName: string, id: Value): (r: Read)
    ensures r.store.Keys == store.Keys
    ensures r.result.Failure? ==> r.store == store
    ensures r.result.Success? ==>
      && resourceName in r.store && PropertyKey(id) in r.store[resourceName].saved
      && r.result.value == r.store[resourceName].saved[PropertyKey(id)]
  {
    match CheckResourceAndId(LastSavedPrefix, definitions, resourceName, id)
    case Some(e) => Read(Failure(e), store)
    case None =>
      if resourceName !in store then Read(Failure(UnhandledError(Fault(NoSavedMap))), store)
      else
        var c, key := store[resourceName], PropertyKey(id);
        if key in c.saved then Read(Success(c.saved[key]), store)
        else Read(Success(0), store[resourceName := c.(saved := c.saved[key := 0])])
  }

  /**
   * The failures, in the order they are checked: RuntimeError exactly for an
   * unregistered resource, IllegalArgumentError exactly for a registered
   * resource and an id that is neither a string nor a number, and
   * UnhandledError exactly for a fault inside the read; no other kind ever
   * escapes, and a failed call leaves the store as it was.
   */
  lemma LastSavedFailures(definitions: map<string, Definition>, store: map<string, Collection>, resourceName: string, id: Value)
    ensures var r := LastSavedOutcome(definitions, store, resourceName, id).result;
      && (r == Failure(RuntimeError(LastSavedPrefix + resourceName + NotRegistered)) <==> resourceName !in definitions)
      && (r == Failure(IllegalArgumentError(LastSavedPrefix + IdMustBePrimitive)) <==> resourceName in definitions && !IsId(id))
      && (r.Failure? && r.error.UnhandledError? <==> resourceName in definitions && IsId(id) && resourceName !in store)
      && (r.Failure? ==> r.error.RuntimeError? || r.error.IllegalArgumentError? || r.error.UnhandledError?)
      && (r.Failure? ==> LastSavedOutcome(definitions, store, resourceName, id).store == store)
  {
  }

  /**
   * A call that passes the checks returns the stored timestamp when the id has
   * one and leaves the store alone; otherwise it stores 0 for the id and
   * returns 0. Either way the id has an entry afterwards equal to the result.
   */
  lemma LastSavedReadsOrInitialises(definitions: map<string, Definition>, store: map<string, Collection>, resourceName: string, id: Value)
    requires resourceName in definitions && IsId(id) && resourceName in store
    ensures
      var o := LastSavedOutcome(definitions, store, resourceName, id);
      var key, saved := PropertyKey(id), store[resourceName].saved;
      && o.result == Success(if key in saved then saved[key] else 0)
      && (key in saved ==> o.store == store)
      && (key !in saved ==> o.store == store[resourceName := store[resourceName].(saved := saved[key := 0])])
      && resourceName in o.store && key in o.store[resourceName].saved
      && o.store[resourceName].saved[key] == o.result.value
  {
  }

  /**
   * Only the id's entry of store[resourceName].saved may change: other
   * resources, the records and the snapshots, and every other saved key stay
   * as they were; a key is only ever added, never removed.
   */
  lemma LastSavedFrame(definitions: map<string, Definition>, store: map<string, Collection>, resourceName: string, id: Value)
    ensures
      var after := LastSavedOutcome(definitions, store, resourceName, id).store;
      && after.Keys == store.Keys
      && (forall r :: r in store && r != resourceName ==> after[r] == store[r])
      && (resourceName in store ==>
            var before, now := store[resourceName], after[resourceName];
            && now.records == before.records
            && now.previousAttributes == before.previousAttributes
            && before.saved.Keys <= now.saved.Keys <= before.saved.Keys + {PropertyKey(id)}
            && (forall k :: k in before.saved ==> now.saved[k] == before.saved[k]))
  {
  }

  /** Two calls in a row with the same arguments return the same value, and the second changes nothing. */
  lemma LastSavedIdempotent(definitions: map<string, Definition>, store: map<string, Collection>, resourceName: string, id: Value)
    ensures
      var first := LastSavedOutcome(definitions, store, resourceName, id);
      LastSavedOutcome(definitions, first.store, resourceName, id) == first
  {
  }

  /**
   * When every registered resource has a collection, as registration
   * arranges, the read never faults: no UnhandledError, and no resource
   * gains or loses its collection.
   */
  lemma InitialisedStoreNeverFaults(definitions: map<string, Definition>, store: map<string, Collection>, resourceName: string, id: Value)
    requires definitions.Keys <= store.Keys
    ensures var o := LastSavedOutcome(definitions, store, resourceName, id);
      && (o.result.Failure? ==> !o.result.error.UnhandledError?)
      && o.store.Keys == store.Keys
  {
  }

  /**
   * The id is documented as optional, but an omitted id (undefined) is
   * rejected by the id check; a never-seen id reads 0, not undefined.
   */
  lemma OmittedIdIsRejected(definitions: map<string, Definition>, store: map<string, Collection>, resourceName: string)
    requires resourceName in definitions
    ensures LastSavedOutcome(definitions, store, resourceName, Undefined)
         == Read(Failure(IllegalArgumentError(LastSavedPrefix + IdMustBePrimitive)), store)
  {
  }

  /** A numeric id and the string of its decimal numeral read and initialise the same entry. */
  lemma NumericAndStringIdsShareEntry(definitions: map<string, Definition>, store: map<string, Collection>, resourceName: string, n: PlainInt)
    ensures LastSavedOutcome(definitions, store, resourceName, Num(n))
         == LastSavedOutcome(definitions, store, resourceName, Str(Decimal(n)))
  {
  }

  /**
   * lastSaved, then a cached update whose server record carries the same id,
   * then lastSaved again: the second read returns the stamp of the first
   * read's value, which differs from it when stamp never returns its input.
   */
  lemma LastSavedChangesAcrossCachedUpdate(
    definitions: map<string, Definition>, adapters: map<string, Adapter>, store: map<string, Collection>,
    resourceName: string, id: Value, attrs: Value, options: Value, stamp: Option<int> -> int)
    requires forall t :: stamp(Some(t)) != t
    requires LastSavedOutcome(definitions, store, resourceName, id).result.Success?
    requires
      var before := LastSavedOutcome(definitions, store, resourceName, id);
      var o := UpdateOutcome(definitions, adapters, before.store, resourceName, id, attrs, options, stamp);
      && CheckArguments(definitions, resourceName, id, attrs, OrEmpty(options)) == None
      && Truthy(EffectiveOptions(options)["cacheResponse"])
      && o.result.Success?
      && PropertyKey(Get(o.result.value, definitions[resourceName].idAttribute)) == PropertyKey(id)
    ensures
      var before := LastSavedOutcome(definitions, store, resourceName, id);
      var o := UpdateOutcome(definitions, adapters, before.store, resourceName, id, attrs, options, stamp);
      var after := LastSavedOutcome(definitions, o.store, resourceName, id);
      && after.result == Success(stamp(Some(before.result.value)))
      && after.result != before.result
      && after.store == o.store
  {
    var before := LastSavedOutcome(definitions, store, resourceName, id);
    LastSavedReadsOrInitialises(definitions, store, resourceName, id);
    CachedUpdateWritesBack(definitions, adapters, before.store, resourceName, id, attrs, options, stamp);
  }
}
