/**
 * The DS object: the registered definitions, the adapters and the
 * per-resource collections, with `update` and `lastSaved` as methods that
 * change the collections in place.
 */
module DataStore {
  import opened Wrappers
  import opened Values
  import opened Errors
  import opened Resources
  import opened Pipeline
  import opened Update
  import opened LastSaved

  class DS {
    var definitions: map<string, Definition>
    var adapters: map<string, Adapter>
    var store: map<string, Collection>

    /**
     * Every definition is registered under its own name, so definition.name
     * and resourceName agree, and every registered resource has a collection.
     */
    ghost predicate Valid()
      reads this
    {
      && (forall n :: n in definitions ==> definitions[n].name == n)
      && store.Keys == definitions.Keys
    }

    /** A data store with the given resources registered, each with an empty collection. */
    constructor (definitions: map<string, Definition>, adapters: map<string, Adapter>)
      requires forall n :: n in definitions ==> definitions[n].name == n
      ensures Valid()
      ensures this.definitions == definitions && this.adapters == adapters
      ensures store == map n | n in definitions :: EmptyCollection
    {
      this.definitions := definitions;
      this.adapters := adapters;
      store := map n | n in definitions :: EmptyCollection;
    }

    /**
     * update(resourceName, id, attrs, options), with `stamp` standing for
     * utils.updateTimestamp. The result and the new store are those of
     * UpdateOutcome; a failure leaves the store untouched. In a valid store
     * a cached update whose pipeline succeeded fails only when inject refuses
     * the pipeline's output.
     */
    method Update(resourceName: string, id: Value, attrs: Value, options: Value, stamp: Option<int> -> int)
      returns (r: Result<Value>)
      requires Valid()
      modifies this`store
      ensures Valid()
      ensures var o := UpdateOutcome(definitions, adapters, old(store), resourceName, id, attrs, options, stamp);
        r == o.result && store == o.store
      ensures r.Failure? ==> store == old(store)
      ensures && CheckArguments(definitions, resourceName, id, attrs, OrEmpty(options)) == None
              && PipelineRun(definitions, adapters, resourceName, id, attrs, options).result.Success?
              && Truthy(EffectiveOptions(options)["cacheResponse"])
              ==> r.Success? || r == Failure(UnhandledError(Fault(NotInjectable)))
    {
      ghost var o := UpdateOutcome(definitions, adapters, store, resourceName, id, attrs, options, stamp);
      var opts := OrEmpty(options);
      var e := CheckArguments(definitions, resourceName, id, attrs, opts);
      if e.Some? {
        return Failure(e.value);
      }
      var definition := definitions[resourceName];
      var run := PipelineRun(definitions, adapters, resourceName, id, attrs, options);
      if run.result.Failure? {
        return run.result;
      }
      var data := run.result.value;
      if !Truthy(EffectiveOptions(options)["cacheResponse"]) {
        return Success(data);
      }
      r := CacheResponse(resourceName, definition.idAttribute, data, stamp);
    }

    /**
     * The callback that caches the adapter's response: inject it, then record
     * its previous attributes and its saved timestamp under its id. The
     * result and the new store are those of WriteBack; a failure leaves the
     * store untouched.
     */
    method CacheResponse(resourceName: string, idAttribute: string, data: Value, stamp: Option<int> -> int)
      returns (r: Result<Value>)
      requires Valid()
      modifies this`store
      ensures Valid()
      ensures var w := WriteBack(old(store), resourceName, idAttribute, data, stamp);
        && r == (if w.Success? then Success(w.value.0) else Failure(w.error))
        && store == (if w.Success? then w.value.1 else old(store))
    {
      if resourceName !in store {
        return Failure(UnhandledError(Fault(NoCollection)));
      }
      var injected := Inject(store[resourceName].records, idAttribute, data);
      if injected.Failure? {
        return Failure(injected.error);
      }
      var (records, updated) := injected.value;
      var key := PropertyKey(Get(updated, idAttribute));
      var resource := store[resourceName];
      store := store[resourceName := resource.(records := records)];
      resource := store[resourceName];
      store := store[resourceName := resource.(previousAttributes := resource.previousAttributes[key := updated])];
      resource := store[resourceName];
      store := store[resourceName := resource.(saved := resource.saved[key := stamp(Lookup(resource.saved, key))])];
      r := Success(store[resourceName].records[key]);
    }

    /**
     * lastSaved(resourceName, id). The result and the new store are those of
     * LastSavedOutcome: on success the id has an entry in saved equal to the
     * result, and an id that already had one leaves the store untouched. In
     * a valid store the read never fails with UnhandledError.
     */
    method LastSaved(resourceName: string, id: Value) returns (r: Result<int>)
      requires Valid()
      modifies this`store
      ensures Valid()
      ensures r.Failure? ==> !r.error.UnhandledError?
      ensures Read(r, store) == LastSavedOutcome(definitions, old(store), resourceName, id)
      ensures r.Success? ==>
        && resourceName in store && PropertyKey(id) in store[resourceName].saved
        && r.value == store[resourceName].saved[PropertyKey(id)]
      ensures r.Failure? || PropertyKey(id) in old(store)[resourceName].saved ==> store == old(store)
    {
      InitialisedStoreNeverFaults(definitions, store, resourceName, id);
      var e := CheckResourceAndId(LastSavedPrefix, definitions, resourceName, id);
      if e.Some? {
        return Failure(e.value);
      }
      if resourceName !in store {
        return Failure(UnhandledError(Fault(NoSavedMap)));
      }
      var key := PropertyKey(id);
      if key !in store[resourceName].saved {
        var resource := store[resourceName];
        store := store[resourceName := resource.(saved := resource.saved[key := 0])];
      }
      r := Success(store[resourceName].saved[key]);
    }
  }
}
