/** HTTPS-triggered functions and how they describe themselves in the manifest. */
module Https {
  import opened Wrappers
  import opened GoModel
  import opened Manifest

  datatype Options = Options(minInstances: int, maxInstances: int, availableMemoryMB: int)

  /**
   * An HTTPS function. Its `Callback` field has the static type
   * `func(ResponseWriter, *Request)`; `callbackCode` tells callbacks apart.
   */
  datatype Function = Function(callbackCode: nat, runWith: Options)
  {
    function Callback(): (c: CallbackValue)
      ensures c.IsFunc() && c.ty == HttpHandlerType
    {
      CallbackOf(HttpHandlerType, callbackCode)
    }

    /** The manifest entry: no event configuration, no region or project, options copied. */
    function Spec(symbolName: string): (s: FunctionSpec)
      ensures s.id == symbolName && EntryPointSymbol(s.entryPoint) == Some(s.id)
      ensures s.apiVersion == GCFv1
      ensures s.trigger == EmptyTrigger && s.trigger.eventFilters == []
      ensures s.region == "" && s.project == ""
      ensures s.minInstances == runWith.minInstances && s.maxInstances == runWith.maxInstances
      ensures s.availableMemoryMB == runWith.availableMemoryMB
    {
      EntryPointRoundTrip(symbolName);
      FunctionSpec(GCFv1, EntryPoint(symbolName), symbolName, "", "", EmptyTrigger,
        runWith.minInstances, runWith.maxInstances, runWith.availableMemoryMB)
    }

    /** Appends exactly one entry, whatever the options: there is nothing to validate. */
    method AddBackendDescription(symbolName: string, b: Backend)
      modifies b
      ensures b.cloudFunctions == old(b.cloudFunctions) + [Spec(symbolName)]
      ensures b.requiredAPIs == old(b.requiredAPIs) && b.topics == old(b.topics) && b.schedules == old(b.schedules)
    {
      b.cloudFunctions := b.cloudFunctions + [FunctionSpec(
        GCFv1, EntryPoint(symbolName), symbolName, "", "", EventTrigger("", [], ""),
        runWith.minInstances, runWith.maxInstances, runWith.availableMemoryMB)];
    }
  }
}
