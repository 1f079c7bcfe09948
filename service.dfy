/**
 * The start-up harness: a builder that collects named modules and components in
 * registration order, `Build`, which runs the modules, and `Start`, which runs the
 * components, each stopping at the first error. A registered function is modelled by
 * the outcome it has when it runs.
 */
module Service {
  import opened Outcomes

  /** A registered builder function and its name. */
  datatype NamedModuleFunc = NamedModuleFunc(fn: Outcome, name: string)

  /** Index of the first function that fails, or |fs| when all of them succeed. */
  function FirstFailure(fs: seq<NamedModuleFunc>): (k: nat)
    ensures k <= |fs|
    ensures forall j :: 0 <= j < k ==> fs[j].fn.Pass?
    ensures k < |fs| ==> fs[k].fn.Fail?
  {
    if fs == [] then 0
    else if fs[0].fn.Fail? then 0
    else 1 + FirstFailure(fs[1..])
  }

  /** Any index that has only successes before it and a failure at it is the first failure. */
  lemma FirstFailureUnique(fs: seq<NamedModuleFunc>, k: nat)
    requires k <= |fs|
    requires forall j :: 0 <= j < k ==> fs[j].fn.Pass?
    requires k < |fs| ==> fs[k].fn.Fail?
    ensures FirstFailure(fs) == k
  {
  }

  /** Runs the functions in order and stops at the first error: the outcome and how many ran. */
  method RunInOrder(fs: seq<NamedModuleFunc>) returns (r: Outcome, invoked: nat)
    ensures invoked <= |fs|
    ensures r.Pass? <==> FirstFailure(fs) == |fs|
    ensures r.Pass? ==> invoked == |fs|
    ensures r.Fail? ==> invoked == FirstFailure(fs) + 1 && r == fs[invoked - 1].fn
  {
    invoked := 0;
    while invoked < |fs|
      invariant invoked <= |fs|
      invariant forall j :: 0 <= j < invoked ==> fs[j].fn.Pass?
    {
      var f := fs[invoked];
      invoked := invoked + 1;
      if f.fn.Fail? {
        FirstFailureUnique(fs, invoked - 1);
        return f.fn, invoked;
      }
    }
    FirstFailureUnique(fs, |fs|);
    r := Pass;
  }

  /** ServiceConfig: the service's name and its components, in registration order. */
  class ServiceConfig {
    const name: string
    var components: seq<NamedModuleFunc>

    constructor (name: string)
      ensures this.name == name && components == []
    {
      this.name := name;
      components := [];
    }

    /** Start: run the components in order; the first error is returned at once. */
    method Start() returns (r: Outcome, started: nat)
      ensures started <= |components|
      ensures r.Pass? <==> forall j :: 0 <= j < |components| ==> components[j].fn.Pass?
      ensures r.Pass? ==> started == |components|
      ensures r.Fail? ==> started == FirstFailure(components) + 1 && r == components[started - 1].fn
    {
      r, started := RunInOrder(components);
    }
  }

  /** FlowServiceBuilder: the service configuration it owns and the modules, in registration order. */
  class FlowServiceBuilder {
    const serviceConfig: ServiceConfig
    var modules: seq<NamedModuleFunc>

    /** NewFlowServiceBuilder: the given name, no modules and no components. */
    constructor (name: string)
      ensures fresh(serviceConfig)
      ensures serviceConfig.name == name && serviceConfig.components == [] && modules == []
    {
      serviceConfig := new ServiceConfig(name);
      modules := [];
    }

    /** Module: append one module; components stay as they are; the builder itself is returned. */
    method Module(name: string, f: Outcome) returns (b: FlowServiceBuilder)
      modifies this
      ensures b == this
      ensures modules == old(modules) + [NamedModuleFunc(f, name)]
      ensures serviceConfig.components == old(serviceConfig.components)
    {
      modules := modules + [NamedModuleFunc(f, name)];
      b := this;
    }

    /** Component: append one component; modules stay as they are; the builder itself is returned. */
    method Component(name: string, f: Outcome) returns (b: FlowServiceBuilder)
      modifies serviceConfig
      ensures b == this
      ensures serviceConfig.components == old(serviceConfig.components) + [NamedModuleFunc(f, name)]
      ensures modules == old(modules)
    {
      serviceConfig.components := serviceConfig.components + [NamedModuleFunc(f, name)];
      b := this;
    }

    /**
     * Build: run the modules in order. Pass stands for a non-nil service with a nil
     * error, Fail(e) for a nil service with the failing module's error e.
     */
    method Build() returns (r: Outcome, built: nat)
      ensures built <= |modules|
      ensures r.Pass? <==> forall j :: 0 <= j < |modules| ==> modules[j].fn.Pass?
      ensures r.Pass? ==> built == |modules|
      ensures r.Fail? ==> built == FirstFailure(modules) + 1 && r == modules[built - 1].fn
    {
      r, built := RunInOrder(modules);
    }
  }
}
