/**
 * The backend descriptor ("manifest") that the emulator serves: the
 * declarations of support/emulator/backend.go, and the identical ones of
 * internal/emulator/backend.go, which differ only in serialisation tags.
 */
module Manifest {
  import opened Wrappers
  import opened GoModel

  datatype EventFilter = EventFilter(attribute: string, value: string)

  datatype EventTrigger = EventTrigger(eventType: string, eventFilters: seq<EventFilter>, serviceAccountEmail: string)

  /** The zero `EventTrigger`, which HTTP functions carry. */
  const EmptyTrigger := EventTrigger("", [], "")

  /**
   * API versions. `GCFv2` is version 2; `GCFv1` is referred to by the HTTPS
   * trigger but not declared in either backend.go, so its number is unknown.
   */
  datatype ApiVersion = GCFv1 | GCFv2
  {
    function Number(): Option<int>
    {
      match this
      case GCFv2 => Some(2)
      case GCFv1 => None
    }
  }

  datatype FunctionSpec = FunctionSpec(
    apiVersion: ApiVersion,
    entryPoint: string,
    id: string,
    region: string,
    project: string,
    trigger: EventTrigger,
    minInstances: int,
    maxInstances: int,
    availableMemoryMB: int)

  datatype TargetService = TargetService(id: string, region: string, project: string)

  datatype PubSubSpec = PubSubSpec(id: string, project: string, targetService: TargetService)

  datatype ScheduleRetryConfig = ScheduleRetryConfig(retryCount: int)

  /** `Transport` is a string type with two named values. */
  type Transport = string

  const PubSubTransport: Transport := "pubsub"
  const HttpsTransport: Transport := "https"

  datatype ScheduleSpec = ScheduleSpec(
    id: string,
    project: string,
    schedule: string,
    timeZone: string,
    retryConfig: ScheduleRetryConfig,
    transport: Transport,
    targetService: TargetService)

  /** The four collections of a backend, as the encoder writes them out. */
  datatype Document = Document(
    requiredAPIs: map<string, string>,
    cloudFunctions: seq<FunctionSpec>,
    topics: seq<PubSubSpec>,
    schedules: seq<ScheduleSpec>)

  /** A `Backend` under construction; trigger descriptions append to it through a pointer. */
  class Backend {
    var requiredAPIs: map<string, string>
    var cloudFunctions: seq<FunctionSpec>
    var topics: seq<PubSubSpec>
    var schedules: seq<ScheduleSpec>

    /** The literal that starts a description: four empty, non-nil collections. */
    constructor ()
      ensures requiredAPIs == map[] && cloudFunctions == [] && topics == [] && schedules == []
    {
      requiredAPIs := map[];
      cloudFunctions := [];
      topics := [];
      schedules := [];
    }

    /** The value the encoder is handed. */
    function Snapshot(): Document
      reads this
    {
      Document(requiredAPIs, cloudFunctions, topics, schedules)
    }
  }

  /** `fmt.Sprintf("%s.%s", symbolName, "Callback")` */
  function EntryPoint(symbolName: string): string
  {
    symbolName + ".Callback"
  }

  const CallbackSuffix := ".Callback"

  /** The symbol an entry point names, if it has the `<symbol>.Callback` form. */
  function EntryPointSymbol(entryPoint: string): Option<string>
  {
    if |entryPoint| >= |CallbackSuffix| && entryPoint[|entryPoint| - |CallbackSuffix|..] == CallbackSuffix
    then Some(entryPoint[..|entryPoint| - |CallbackSuffix|])
    else None
  }

  /** An entry point names its symbol back: the deployment tool can recover the id from it. */
  lemma EntryPointRoundTrip(symbolName: string)
    ensures EntryPointSymbol(EntryPoint(symbolName)) == Some(symbolName)
  {
    var e := EntryPoint(symbolName);
    assert e[|e| - |CallbackSuffix|..] == CallbackSuffix;
    assert e[..|e| - |CallbackSuffix|] == symbolName;
  }

  /** `ProjectOrDefault`: a non-empty project, otherwise `GCLOUD_PROJECT` (which may be empty). */
  function ProjectOrDefault(project: string, env: Env): (r: string)
    ensures project != "" ==> r == project
    ensures project == "" ==> r == Getenv(env, "GCLOUD_PROJECT")
    ensures r == "" <==> project == "" && Getenv(env, "GCLOUD_PROJECT") == ""
  {
    if project != "" then project else Getenv(env, "GCLOUD_PROJECT")
  }
}
