/**
 * The request-scoped context store: a handler that has resolved a service
 * or a service plan attaches it to the request's context so later code in
 * the same request can retrieve it. A Go context is immutable; adding a
 * value derives a new context, so the store is modelled as a map value.
 *
 * `S` and `P` are the service and plan records, `V` the type of values
 * other code stores under its own keys.
 */
module ContextStore {
  import opened Options

  /** The keys of the store: the two private keys of the utilities, and any other code's keys. */
  datatype Key = ServiceKey | ServicePlanKey | OtherKey(name: string)

  datatype Entry<S, P, V> = ServiceEntry(service: S) | PlanEntry(plan: P) | OtherEntry(value: V)

  datatype Context<S, P, V> = Context(values: map<Key, Entry<S, P, V>>)

  /** Each private key holds a value of its own type: only the utilities write them. */
  predicate WellTyped<S, P, V>(ctx: Context<S, P, V>) {
    (ServiceKey in ctx.values ==> ctx.values[ServiceKey].ServiceEntry?)
    && (ServicePlanKey in ctx.values ==> ctx.values[ServicePlanKey].PlanEntry?)
    && (forall k :: k in ctx.values && k.OtherKey? ==> ctx.values[k].OtherEntry?)
  }

  /** The empty context of a request. */
  function Background<S, P, V>(): (ctx: Context<S, P, V>)
    ensures WellTyped(ctx)
    ensures forall k :: k !in ctx.values
  {
    Context(map[])
  }

  /** A derived context carrying `value` under another package's key `name`. */
  function WithValue<S, P, V>(ctx: Context<S, P, V>, name: string, value: V): (r: Context<S, P, V>)
    ensures WellTyped(ctx) ==> WellTyped(r)
    ensures Value(r, name) == Some(value)
    ensures forall k :: k != OtherKey(name) ==> (k in r.values <==> k in ctx.values)
    ensures forall k :: k != OtherKey(name) && k in ctx.values ==> r.values[k] == ctx.values[k]
  {
    Context(ctx.values[OtherKey(name) := OtherEntry(value)])
  }

  /** The value under another package's key `name`; None when absent. */
  function Value<S, P, V>(ctx: Context<S, P, V>, name: string): (r: Option<V>)
    ensures r.Some? ==> OtherKey(name) in ctx.values && ctx.values[OtherKey(name)] == OtherEntry(r.value)
    ensures r.None? ==> OtherKey(name) !in ctx.values || !ctx.values[OtherKey(name)].OtherEntry?
  {
    if OtherKey(name) in ctx.values && ctx.values[OtherKey(name)].OtherEntry?
    then Some(ctx.values[OtherKey(name)].value) else None
  }

  /** Attaches a service; a nil service (None) returns the context unchanged. */
  function AddServiceToContext<S, P, V>(ctx: Context<S, P, V>, service: Option<S>): (r: Context<S, P, V>)
    ensures service.None? ==> r == ctx
    ensures service.Some? ==> ServiceKey in r.values && r.values[ServiceKey] == ServiceEntry(service.value)
    ensures forall k :: k != ServiceKey ==> (k in r.values <==> k in ctx.values)
    ensures forall k :: k != ServiceKey && k in ctx.values ==> r.values[k] == ctx.values[k]
  {
    match service
    case None => ctx
    case Some(s) => Context(ctx.values[ServiceKey := ServiceEntry(s)])
  }

  /** The attached service; nil (None) when none was attached. */
  function RetrieveServiceFromContext<S, P, V>(ctx: Context<S, P, V>): (r: Option<S>)
    ensures r.Some? ==> ServiceKey in ctx.values && ctx.values[ServiceKey] == ServiceEntry(r.value)
    ensures WellTyped(ctx) && r.None? ==> ServiceKey !in ctx.values
  {
    if ServiceKey in ctx.values && ctx.values[ServiceKey].ServiceEntry?
    then Some(ctx.values[ServiceKey].service) else None
  }

  /** Attaches a service plan; a nil plan (None) returns the context unchanged. */
  function AddServicePlanToContext<S, P, V>(ctx: Context<S, P, V>, plan: Option<P>): (r: Context<S, P, V>)
    ensures plan.None? ==> r == ctx
    ensures plan.Some? ==> ServicePlanKey in r.values && r.values[ServicePlanKey] == PlanEntry(plan.value)
    ensures forall k :: k != ServicePlanKey ==> (k in r.values <==> k in ctx.values)
    ensures forall k :: k != ServicePlanKey && k in ctx.values ==> r.values[k] == ctx.values[k]
  {
    match plan
    case None => ctx
    case Some(p) => Context(ctx.values[ServicePlanKey := PlanEntry(p)])
  }

  /** The attached service plan; nil (None) when none was attached. */
  function RetrieveServicePlanFromContext<S, P, V>(ctx: Context<S, P, V>): (r: Option<P>)
    ensures r.Some? ==> ServicePlanKey in ctx.values && ctx.values[ServicePlanKey] == PlanEntry(r.value)
    ensures WellTyped(ctx) && r.None? ==> ServicePlanKey !in ctx.values
  {
    if ServicePlanKey in ctx.values && ctx.values[ServicePlanKey].PlanEntry?
    then Some(ctx.values[ServicePlanKey].plan) else None
  }

  // ---- Properties ----

  /** Attaching keeps each private key holding its own type. */
  lemma AddPreservesWellTyped<S, P, V>(ctx: Context<S, P, V>, service: Option<S>, plan: Option<P>)
    requires WellTyped(ctx)
    ensures WellTyped(AddServiceToContext(ctx, service))
    ensures WellTyped(AddServicePlanToContext(ctx, plan))
  {
  }

  /**
   * Adding a nil service gives back the original context: a context with no
   * service still yields nil, and another package's value is still there.
   */
  lemma AddNilService<S, P, V>(ctx: Context<S, P, V>, name: string)
    ensures AddServiceToContext(ctx, None) == ctx
    ensures ServiceKey !in ctx.values ==> RetrieveServiceFromContext(AddServiceToContext(ctx, None)) == None
    ensures Value(AddServiceToContext(ctx, None), name) == Value(ctx, name)
  {
  }

  /** A service that was added is the one retrieved. */
  lemma AddThenRetrieveService<S, P, V>(ctx: Context<S, P, V>, service: S)
    ensures RetrieveServiceFromContext(AddServiceToContext(ctx, Some(service))) == Some(service)
  {
  }

  /** Adding a nil plan gives back the original context, which still has no plan. */
  lemma AddNilPlan<S, P, V>(ctx: Context<S, P, V>, name: string)
    ensures AddServicePlanToContext(ctx, None) == ctx
    ensures ServicePlanKey !in ctx.values ==> RetrieveServicePlanFromContext(AddServicePlanToContext(ctx, None)) == None
    ensures Value(AddServicePlanToContext(ctx, None), name) == Value(ctx, name)
  {
  }

  /** A plan that was added is the one retrieved. */
  lemma AddThenRetrievePlan<S, P, V>(ctx: Context<S, P, V>, plan: P)
    ensures RetrieveServicePlanFromContext(AddServicePlanToContext(ctx, Some(plan))) == Some(plan)
  {
  }

  /**
   * Adding a service or a plan leaves everything else as it was: another
   * package's values, and the other of the two records.
   */
  lemma AddLeavesOthers<S, P, V>(ctx: Context<S, P, V>, service: Option<S>, plan: Option<P>, name: string)
    ensures Value(AddServiceToContext(ctx, service), name) == Value(ctx, name)
    ensures Value(AddServicePlanToContext(ctx, plan), name) == Value(ctx, name)
    ensures RetrieveServicePlanFromContext(AddServiceToContext(ctx, service)) == RetrieveServicePlanFromContext(ctx)
    ensures RetrieveServiceFromContext(AddServicePlanToContext(ctx, plan)) == RetrieveServiceFromContext(ctx)
  {
  }

  /**
   * The scenario of the tests: a request context holding one value of
   * another package; a nil service or plan leaves it with none, and adding
   * real ones makes them retrievable while the value stays.
   */
  lemma RequestScenario<S, P, V>(name: string, value: V, service: S, plan: P)
    ensures var ctx := WithValue(Background<S, P, V>(), name, value);
      RetrieveServiceFromContext(AddServiceToContext(ctx, None)) == None
      && RetrieveServicePlanFromContext(AddServicePlanToContext(ctx, None)) == None
      && RetrieveServiceFromContext(AddServiceToContext(ctx, Some(service))) == Some(service)
      && RetrieveServicePlanFromContext(AddServicePlanToContext(ctx, Some(plan))) == Some(plan)
      && Value(AddServicePlanToContext(AddServiceToContext(ctx, Some(service)), Some(plan)), name) == Some(value)
  {
  }
}
