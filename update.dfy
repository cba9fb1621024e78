/**
 * DS.update(resourceName, id, attrs[, options]): the argument checks, the
 * cacheResponse default, the lifecycle pipeline around adapter.update and the
 * write-back into the resource's collection, as one value-level outcome.
 * DataStore.DS.Update performs it in place and is proved equal to it.
 */
module Update {
  import opened Wrappers
  import opened Values
  import opened Errors
  import opened Resources
  import opened Pipeline

  const UpdatePrefix := "DS.update(resourceName, id, attrs[, options]): "

  /** The engine's TypeError when `adapters[name]` is undefined and `.update` is read from it. */
  const NoSuchAdapter := "Cannot read property 'update' of undefined"

  /**
   * The fault assumed when injecting into a collection the store does not
   * hold. update.js catches nothing itself, so its arrival as UnhandledError
   * is an assumption about inject (not part of this model), in line with the
   * documented rejection with UnhandledError.
   */
  const NoCollection := "Cannot read property 'collection' of undefined"

  /** `options = options || {}` */
  function OrEmpty(options: Value): (o: Value)
    ensures Truthy(options) ==> o == options
    ensures !Truthy(options) ==> o == Obj(map[])
    ensures IsObject(o) <==> IsObject(options) || !Truthy(options)
  {
    if Truthy(options) then options else Obj(map[])
  }

  /**
   * The precondition cascade of update, applied to the options after OrEmpty:
   * each check fails with its own error and only when every earlier check passed.
   */
  function CheckArguments(definitions: map<string, Definition>, resourceName: string, id: Value, attrs: Value, options: Value): (e: Option<Error>)
    ensures e == Some(RuntimeError(UpdatePrefix + resourceName + NotRegistered)) <==> resourceName !in definitions
    ensures e == Some(IllegalArgumentError(UpdatePrefix + IdMustBePrimitive)) <==> resourceName in definitions && !IsId(id)
    ensures e == Some(IllegalArgumentError(UpdatePrefix + AttrsMustBeObject)) <==>
      resourceName in definitions && IsId(id) && !IsObject(attrs)
    ensures e == Some(IllegalArgumentError(UpdatePrefix + OptionsMustBeObject)) <==>
      resourceName in definitions && IsId(id) && IsObject(attrs) && !IsObject(options)
    ensures e == None <==> resourceName in definitions && IsId(id) && IsObject(attrs) && IsObject(options)
  {
    ArgumentMessagesDistinct(UpdatePrefix);
    match CheckResourceAndId(UpdatePrefix, definitions, resourceName, id)
    case Some(err) => Some(err)
    case None =>
      if !IsObject(attrs) then Some(IllegalArgumentError(UpdatePrefix + AttrsMustBeObject))
      else if !IsObject(options) then Some(IllegalArgumentError(UpdatePrefix + OptionsMustBeObject))
      else None
  }

  /**
   * The cacheResponse default: true when the key is absent, otherwise its
   * boolean coercion; every other option is kept as it is.
   */
  function DefaultCacheResponse(options: map<string, Value>): (o: map<string, Value>)
    ensures o.Keys == options.Keys + {"cacheResponse"}
    ensures o["cacheResponse"] == Bool("cacheResponse" !in options || Truthy(options["cacheResponse"]))
    ensures forall k :: k in options && k != "cacheResponse" ==> o[k] == options[k]
  {
    if "cacheResponse" !in options then options["cacheResponse" := Bool(true)]
    else options["cacheResponse" := Bool(Truthy(options["cacheResponse"]))]
  }

  /** Defaulting options that were already defaulted changes nothing. */
  lemma DefaultCacheResponseIdempotent(options: map<string, Value>)
    ensures DefaultCacheResponse(DefaultCacheResponse(options)) == DefaultCacheResponse(options)
  {
  }

  /** `options.adapter || definition.defaultAdapter`, as the key into the adapters. */
  function AdapterName(def: Definition, options: map<string, Value>): (r: string)
    ensures "adapter" !in options || !Truthy(options["adapter"]) ==> r == def.defaultAdapter
    ensures "adapter" in options && options["adapter"].Str? && options["adapter"].s != "" ==> r == options["adapter"].s
  {
    if "adapter" in options && Truthy(options["adapter"]) then PropertyKey(options["adapter"])
    else def.defaultAdapter
  }

  /** The stages of update, in the order they are chained. */
  datatype Stage =
    | BeforeValidate | Validate | AfterValidate | BeforeUpdate
    | Serialize | AdapterUpdate | Deserialize | AfterUpdate

  const UpdateStages: seq<Stage> :=
    [BeforeValidate, Validate, AfterValidate, BeforeUpdate, Serialize, AdapterUpdate, Deserialize, AfterUpdate]

  /**
   * What one stage does with its payload. The adapter is looked up when its
   * `update` is read, before serialize runs, so a missing adapter fails the
   * Serialize stage.
   */
  function StageStep(def: Definition, adapters: map<string, Adapter>, resourceName: string, id: Value, options: map<string, Value>, stage: Stage): (r: Step)
  {
    var adapter := AdapterName(def, options);
    match stage
    case BeforeValidate => v => def.beforeValidate(resourceName, v)
    case Validate => v => def.validate(resourceName, v)
    case AfterValidate => v => def.afterValidate(resourceName, v)
    case BeforeUpdate => v => def.beforeUpdate(resourceName, v)
    case Serialize => v => if adapter in adapters then def.serialize(resourceName, v) else Failure(Fault(NoSuchAdapter))
    case AdapterUpdate => v => if adapter in adapters then adapters[adapter].update(def, id, v, Obj(options)) else Failure(Fault(NoSuchAdapter))
    case Deserialize => v => def.deserialize(resourceName, v)
    case AfterUpdate => v => def.afterUpdate(resourceName, v)
  }

  /** The eight stages, in the order of UpdateStages. */
  function UpdateSteps(def: Definition, adapters: map<string, Adapter>, resourceName: string, id: Value, options: map<string, Value>): (steps: seq<Step>)
  {
    seq(|UpdateStages|, i requires 0 <= i < |UpdateStages| => StageStep(def, adapters, resourceName, id, options, UpdateStages[i]))
  }

  /**
   * The cache step: inject the data, snapshot the injected record into
   * previousAttributes, advance saved with `stamp` (utils.updateTimestamp),
   * all under the key of the injected record's idAttribute, and read the
   * stored record back. update.js passes definition.name to inject and get
   * but snapshots and stamps into store[resourceName]; this function uses
   * resourceName for all of them, which agree only when the definition is
   * registered under its own name (DataStore.DS.Valid).
   */
  function WriteBack(store: map<string, Collection>, resourceName: string, idAttribute: string, data: Value, stamp: Option<int> -> int): (r: Result<(Value, map<string, Collection>)>)
    ensures r.Failure? <==> resourceName !in store || !(data.Obj? && idAttribute in data.fields && IsId(data.fields[idAttribute]))
    ensures r.Failure? ==> r.error == UnhandledError(Fault(if resourceName in store then NotInjectable else NoCollection))
    ensures r.Success? ==>
      var (record, written) := r.value;
      var key := PropertyKey(data.fields[idAttribute]);
      && written.Keys == store.Keys
      && (forall n :: n in store && n != resourceName ==> written[n] == store[n])
      && key in written[resourceName].records && written[resourceName].records[key] == record
      && written[resourceName] == Collection(
           store[resourceName].records[key := record],
           store[resourceName].saved[key := stamp(Lookup(store[resourceName].saved, key))],
           store[resourceName].previousAttributes[key := record])
  {
    if resourceName !in store then Failure(UnhandledError(Fault(NoCollection)))
    else
      var c := store[resourceName];
      match Inject(c.records, idAttribute, data)
      case Failure(e) => Failure(e)
      case Success((records, updated)) =>
        var key := PropertyKey(Get(updated, idAttribute));
        var written := Collection(
          records,
          c.saved[key := stamp(Lookup(c.saved, key))],
          c.previousAttributes[key := updated]);
        Success((records[key], store[resourceName := written]))
  }

  /** What an update call yields, what the store holds afterwards, and what each invoked stage was fed. */
  datatype Outcome = Outcome(result: Result<Value>, store: map<string, Collection>, fed: seq<Value>)

  /** The stages an outcome shows were invoked. */
  function Invoked(o: Outcome): (r: seq<Stage>)
    requires |o.fed| <= |UpdateStages|
  {
    UpdateStages[..|o.fed|]
  }

  /** The options the pipeline sees: `options || {}` with cacheResponse defaulted. */
  function EffectiveOptions(options: Value): (r: map<string, Value>)
    requires IsObject(OrEmpty(options))
  {
    DefaultCacheResponse(OrEmpty(options).fields)
  }

  /** The hook and adapter pipeline of a call whose arguments passed the checks. */
  function PipelineRun(definitions: map<string, Definition>, adapters: map<string, Adapter>, resourceName: string, id: Value, attrs: Value, options: Value): (r: Run)
    requires CheckArguments(definitions, resourceName, id, attrs, OrEmpty(options)) == None
  {
    Execute(UpdateSteps(definitions[resourceName], adapters, resourceName, id, EffectiveOptions(options)), attrs)
  }

  function UpdateOutcome(
    definitions: map<string, Definition>, adapters: map<string, Adapter>, store: map<string, Collection>,
    resourceName: string, id: Value, attrs: Value, options: Value, stamp: Option<int> -> int): (r: Outcome)
    ensures |r.fed| <= |UpdateStages|
    ensures r.store.Keys == store.Keys
    ensures r.result.Failure? ==> r.store == store
    ensures r.store != store ==>
      && resourceName in store && resourceName in definitions
      && forall n :: n in store && n != resourceName ==> r.store[n] == store[n]
  {
    match CheckArguments(definitions, resourceName, id, attrs, OrEmpty(options))
    case Some(e) => Outcome(Failure(e), store, [])
    case None =>
      var run := PipelineRun(definitions, adapters, resourceName, id, attrs, options);
      match run.result
      case Failure(e) => Outcome(Failure(e), store, run.fed)
      case Success(data) =>
        if Truthy(EffectiveOptions(options)["cacheResponse"]) then
          match WriteBack(store, resourceName, definitions[resourceName].idAttribute, data, stamp)
          case Failure(e) => Outcome(Failure(e), store, run.fed)
          case Success((record, written)) => Outcome(Success(record), written, run.fed)
        else
          Outcome(Success(data), store, run.fed)
  }

  /** A failed precondition is the whole outcome: no stage is invoked and the store is untouched. */
  lemma PreconditionFailureRunsNothing(
    definitions: map<string, Definition>, adapters: map<string, Adapter>, store: map<string, Collection>,
    resourceName: string, id: Value, attrs: Value, options: Value, stamp: Option<int> -> int)
    requires CheckArguments(definitions, resourceName, id, attrs, OrEmpty(options)).Some?
    ensures var o := UpdateOutcome(definitions, adapters, store, resourceName, id, attrs, options, stamp);
      && o.result == Failure(CheckArguments(definitions, resourceName, id, attrs, OrEmpty(options)).value)
      && o.store == store
      && Invoked(o) == []
  {
  }

  /** A falsy or absent options argument behaves exactly as `{}` and never fails the options check. */
  lemma FalsyOptionsAreEmptyOptions(
    definitions: map<string, Definition>, adapters: map<string, Adapter>, store: map<string, Collection>,
    resourceName: string, id: Value, attrs: Value, options: Value, stamp: Option<int> -> int)
    requires !Truthy(options)
    ensures UpdateOutcome(definitions, adapters, store, resourceName, id, attrs, options, stamp)
         == UpdateOutcome(definitions, adapters, store, resourceName, id, attrs, Obj(map[]), stamp)
    ensures CheckArguments(definitions, resourceName, id, attrs, OrEmpty(options))
         != Some(IllegalArgumentError(UpdatePrefix + OptionsMustBeObject))
  {
  }

  /**
   * Once the checks pass, the stages run in the order of UpdateStages, the
   * first fed attrs and each later one fed its predecessor's output; a
   * failing stage is the last one invoked, its failure is the result and the
   * store is untouched.
   */
  lemma StagesRunInOrder(
    definitions: map<string, Definition>, adapters: map<string, Adapter>, store: map<string, Collection>,
    resourceName: string, id: Value, attrs: Value, options: Value, stamp: Option<int> -> int)
    requires CheckArguments(definitions, resourceName, id, attrs, OrEmpty(options)) == None
    ensures
      var o := UpdateOutcome(definitions, adapters, store, resourceName, id, attrs, options, stamp);
      var def, opts := definitions[resourceName], EffectiveOptions(options);
      var pipeline := PipelineRun(definitions, adapters, resourceName, id, attrs, options);
      && o.fed == pipeline.fed
      && 0 < |o.fed| <= |UpdateStages|
      && o.fed[0] == attrs
      && (forall i :: 0 <= i < |o.fed| - 1 ==>
            StageStep(def, adapters, resourceName, id, opts, UpdateStages[i])(o.fed[i]) == Success(o.fed[i + 1]))
      && (pipeline.result.Failure? ==>
            && StageStep(def, adapters, resourceName, id, opts, UpdateStages[|o.fed| - 1])(o.fed[|o.fed| - 1]) == pipeline.result
            && o.result == pipeline.result
            && o.store == store)
      && (pipeline.result.Success? ==> Invoked(o) == UpdateStages)
  {
    var def, opts := definitions[resourceName], EffectiveOptions(options);
    var steps := UpdateSteps(def, adapters, resourceName, id, opts);
    var run := PipelineRun(definitions, adapters, resourceName, id, attrs, options);
    var o := UpdateOutcome(definitions, adapters, store, resourceName, id, attrs, options, stamp);
    assert o.fed == run.fed;
    assert Threads(steps, attrs, run);
    if run.result.Success? {
      assert |o.fed| == |UpdateStages|;
    }
  }

  /**
   * On a successful pipeline every stage ran once, in order: the adapter
   * chosen by AdapterName received serialize of beforeUpdate's output, and
   * afterUpdate received deserialize of the adapter's response.
   */
  lemma SuccessfulPipelineChain(
    definitions: map<string, Definition>, adapters: map<string, Adapter>, store: map<string, Collection>,
    resourceName: string, id: Value, attrs: Value, options: Value, stamp: Option<int> -> int)
    requires CheckArguments(definitions, resourceName, id, attrs, OrEmpty(options)) == None
    requires PipelineRun(definitions, adapters, resourceName, id, attrs, options).result.Success?
    ensures
      var fed := UpdateOutcome(definitions, adapters, store, resourceName, id, attrs, options, stamp).fed;
      var def, opts := definitions[resourceName], EffectiveOptions(options);
      var adapter := AdapterName(def, opts);
      && |fed| == 8
      && fed[0] == attrs
      && def.beforeValidate(resourceName, fed[0]) == Success(fed[1])
      && def.validate(resourceName, fed[1]) == Success(fed[2])
      && def.afterValidate(resourceName, fed[2]) == Success(fed[3])
      && def.beforeUpdate(resourceName, fed[3]) == Success(fed[4])
      && adapter in adapters
      && def.serialize(resourceName, fed[4]) == Success(fed[5])
      && adapters[adapter].update(def, id, fed[5], Obj(opts)) == Success(fed[6])
      && def.deserialize(resourceName, fed[6]) == Success(fed[7])
      && def.afterUpdate(resourceName, fed[7]) == PipelineRun(definitions, adapters, resourceName, id, attrs, options).result
  {
    var def, opts := definitions[resourceName], EffectiveOptions(options);
    var run := PipelineRun(definitions, adapters, resourceName, id, attrs, options);
    assert UpdateOutcome(definitions, adapters, store, resourceName, id, attrs, options, stamp).fed == run.fed;
    SuccessfulStepsChain(def, adapters, resourceName, id, opts, attrs);
  }

  /** SuccessfulPipelineChain for the eight stages alone, apart from the argument checks. */
  lemma SuccessfulStepsChain(def: Definition, adapters: map<string, Adapter>, resourceName: string, id: Value, opts: map<string, Value>, attrs: Value)
    requires Execute(UpdateSteps(def, adapters, resourceName, id, opts), attrs).result.Success?
    ensures
      var run := Execute(UpdateSteps(def, adapters, resourceName, id, opts), attrs);
      var fed, adapter := run.fed, AdapterName(def, opts);
      && |fed| == 8
      && fed[0] == attrs
      && def.beforeValidate(resourceName, fed[0]) == Success(fed[1])
      && def.validate(resourceName, fed[1]) == Success(fed[2])
      && def.afterValidate(resourceName, fed[2]) == Success(fed[3])
      && def.beforeUpdate(resourceName, fed[3]) == Success(fed[4])
      && adapter in adapters
      && def.serialize(resourceName, fed[4]) == Success(fed[5])
      && adapters[adapter].update(def, id, fed[5], Obj(opts)) == Success(fed[6])
      && def.deserialize(resourceName, fed[6]) == Success(fed[7])
      && def.afterUpdate(resourceName, fed[7]) == run.result
  {
    var steps := UpdateSteps(def, adapters, resourceName, id, opts);
    var run := Execute(steps, attrs);
    assert Threads(steps, attrs, run);
    assert steps[4](run.fed[4]) == Success(run.fed[5]);
    assert steps[5](run.fed[5]) == Success(run.fed[6]);
  }

  /** With no adapter under the chosen name, serialize is never called and the call fails with the engine's TypeError. */
  lemma MissingAdapterStopsBeforeSerialize(
    definitions: map<string, Definition>, adapters: map<string, Adapter>, store: map<string, Collection>,
    resourceName: string, id: Value, attrs: Value, options: Value, stamp: Option<int> -> int)
    requires CheckArguments(definitions, resourceName, id, attrs, OrEmpty(options)) == None
    requires AdapterName(definitions[resourceName], EffectiveOptions(options)) !in adapters
    ensures var o := UpdateOutcome(definitions, adapters, store, resourceName, id, attrs, options, stamp);
      && o.result.Failure?
      && o.store == store
      && |o.fed| <= 5
      && (|o.fed| == 5 ==> o.result == Failure(Fault(NoSuchAdapter)))
  {
    var steps := UpdateSteps(definitions[resourceName], adapters, resourceName, id, EffectiveOptions(options));
    assert forall v :: steps[4](v) == Failure(Fault(NoSuchAdapter));
    AlwaysFailingStageStops(steps, attrs, 4);
  }

  /** With cacheResponse given and falsy, the pipeline's output is returned and the store is untouched. */
  lemma UncachedUpdateLeavesStore(
    definitions: map<string, Definition>, adapters: map<string, Adapter>, store: map<string, Collection>,
    resourceName: string, id: Value, attrs: Value, options: Value, stamp: Option<int> -> int)
    requires CheckArguments(definitions, resourceName, id, attrs, OrEmpty(options)) == None
    requires "cacheResponse" in OrEmpty(options).fields && !Truthy(OrEmpty(options).fields["cacheResponse"])
    ensures var o := UpdateOutcome(definitions, adapters, store, resourceName, id, attrs, options, stamp);
      && o.store == store
      && o.result == PipelineRun(definitions, adapters, resourceName, id, attrs, options).result
  {
  }

  /**
   * With caching on, a successful update stores the record under the key of
   * the injected record's idAttribute (not the id argument): the records
   * entry and the previousAttributes entry for that key become the returned
   * record, saved for that key becomes stamp of its old value, and nothing
   * else in the store changes.
   */
  lemma CachedUpdateWritesBack(
    definitions: map<string, Definition>, adapters: map<string, Adapter>, store: map<string, Collection>,
    resourceName: string, id: Value, attrs: Value, options: Value, stamp: Option<int> -> int)
    requires CheckArguments(definitions, resourceName, id, attrs, OrEmpty(options)) == None
    requires "cacheResponse" !in OrEmpty(options).fields || Truthy(OrEmpty(options).fields["cacheResponse"])
    requires UpdateOutcome(definitions, adapters, store, resourceName, id, attrs, options, stamp).result.Success?
    ensures
      var o := UpdateOutcome(definitions, adapters, store, resourceName, id, attrs, options, stamp);
      var data := PipelineRun(definitions, adapters, resourceName, id, attrs, options).result.value;
      var idAttribute := definitions[resourceName].idAttribute;
      && resourceName in store
      && data.Obj? && idAttribute in data.fields && IsId(data.fields[idAttribute])
      && var key := PropertyKey(data.fields[idAttribute]);
         var c, record := store[resourceName], o.result.value;
         && o.store == store[resourceName := Collection(
              c.records[key := record],
              c.saved[key := stamp(Lookup(c.saved, key))],
              c.previousAttributes[key := record])]
         && PropertyKey(Get(record, idAttribute)) == key
         && record.Obj?
         && (forall f :: f in data.fields ==> f in record.fields && record.fields[f] == data.fields[f])
  {
    var data := PipelineRun(definitions, adapters, resourceName, id, attrs, options).result.value;
    var idAttribute := definitions[resourceName].idAttribute;
    InjectedRecordKey(store[resourceName].records, idAttribute, data);
  }

  /**
   * An update succeeds exactly when its checks pass, its pipeline succeeds
   * and, with caching on, the collection exists and the pipeline's output is
   * a record whose idAttribute is a string or a number.
   */
  lemma UpdateSucceedsExactlyWhen(
    definitions: map<string, Definition>, adapters: map<string, Adapter>, store: map<string, Collection>,
    resourceName: string, id: Value, attrs: Value, options: Value, stamp: Option<int> -> int)
    ensures UpdateOutcome(definitions, adapters, store, resourceName, id, attrs, options, stamp).result.Success? <==>
      && CheckArguments(definitions, resourceName, id, attrs, OrEmpty(options)) == None
      && var run := PipelineRun(definitions, adapters, resourceName, id, attrs, options);
         var idAttribute := definitions[resourceName].idAttribute;
         && run.result.Success?
         && (Truthy(EffectiveOptions(options)["cacheResponse"]) ==>
               && resourceName in store
               && run.result.value.Obj?
               && idAttribute in run.result.value.fields
               && IsId(run.result.value.fields[idAttribute]))
  {
  }

  /**
   * When every registered resource has a collection, a cached update whose
   * pipeline succeeded fails only when inject refuses the pipeline's output,
   * and no resource gains or loses its collection.
   */
  lemma InitialisedStoreOnlyInjectCanFail(
    definitions: map<string, Definition>, adapters: map<string, Adapter>, store: map<string, Collection>,
    resourceName: string, id: Value, attrs: Value, options: Value, stamp: Option<int> -> int)
    requires definitions.Keys <= store.Keys
    ensures var o := UpdateOutcome(definitions, adapters, store, resourceName, id, attrs, options, stamp);
      && o.store.Keys == store.Keys
      && (&& CheckArguments(definitions, resourceName, id, attrs, OrEmpty(options)) == None
          && PipelineRun(definitions, adapters, resourceName, id, attrs, options).result.Success?
          && Truthy(EffectiveOptions(options)["cacheResponse"])
          ==> o.result.Success? || o.result == Failure(UnhandledError(Fault(NotInjectable))))
  {
  }
}
